/** One run of the backup service on a store, and what a created backup means. */
module Backups {
  import opened Names
  import opened Ordering
  import opened Delta
  import opened Chain
  import opened Format
  import opened Repair
  import opened History
  import opened Removal
  import opened Scan
  import opened Vault
  import opened Backup

  /** The clock, the GUID, the archive extension and the user's comment for one run. */
  datatype Stamp = Stamp(parts: NameParts, time: int, timestamp: string, createdAt: string, comment: string)

  function StampStem(site: Site, stamp: Stamp): string
  {
    ArchiveStem(site.worldName, stamp.comment, stamp.parts)
  }

  function Archived(source: Source, files: seq<Path>): Files
  {
    map p | p in files && p in source :: source[p].content
  }

  function Build(site: Site, dec: Decision, scan: ScanResult, source: Source, stamp: Stamp): NewBackup
    requires dec.Make?
  {
    var name := GeneratedName(dec.kind, site.worldName, stamp.comment, stamp.parts);
    NewBackup(
      name,
      Archive(Archived(source, dec.files), dec.marker, stamp.time),
      if dec.basedOn == NoArchive then name else dec.basedOn,
      scan.last, dec.current, dec.changes, stamp.createdAt, stamp.timestamp,
      HistoryEntry(site.scope.configId, stamp.timestamp, site.worldPath, site.worldName, name, dec.kind,
                   IsSmart(dec.kind), stamp.comment, false, false, "", "", "", ""))
  }

  /** The archives of the directory from oldest to newest. */
  ghost predicate TimeListing(archives: map<ArchiveName, Archive>, order: seq<ArchiveName>)
  {
    && Elems(order) == archives.Keys
    && Distinct(order)
    && forall i, j | 0 <= i < j < |order| :: archives[order[i]].time <= archives[order[j]].time
  }

  ghost function DecisionFor(site: Site, cfg: BackupConfig, d: Disk, source: Source, order: seq<ArchiveName>,
                             migration: bool): Decision
  {
    var missing := migration || !HasFullLike(order);
    var limit := cfg.mode == 2 && cfg.maxSmart > 0 && !missing && LimitReached(order, cfg.maxSmart);
    Decide(cfg, missing, limit, Scanned(source, d.state, d.archives.Keys), site.blacklisted)
  }

  ghost function BackupFor(site: Site, cfg: BackupConfig, d: Disk, source: Source, order: seq<ArchiveName>,
                           migration: bool, stamp: Stamp): NewBackup
    requires DecisionFor(site, cfg, d, source, order, migration).Make?
  {
    Build(site, DecisionFor(site, cfg, d, source, order, migration), Scanned(source, d.state, d.archives.Keys), source, stamp)
  }

  /** The stem of the new archive is new up to letter case, as a GUID makes it. */
  ghost predicate FreshStem(d: Disk, stem: string)
  {
    forall n | n in InPlay(d) && n.Named? :: Lower(n.stem) != Lower(stem)
  }

  datatype RunOutcome = NoChanges | Rejected | Done(commit: CommitOutcome)

  ghost predicate Delivered(w: World, b: NewBackup, f: CommitFaults, outcome: CommitOutcome, x: World)
  {
    && outcome == (if f.AllSucceed() then Created else Failed(f.AllButHistory() && !f.RecoverySucceeds()))
    && (outcome == Created ==> x == Committed(w, b))
    && (outcome != Created ==> Uncommitted(w, b, f.LeavesState(), x))
    && (f.AllButHistory() && f.RecoverySucceeds() ==> x == w)
    && Absent(x) <= Absent(w)
  }

  ghost predicate RunEffect(site: Site, cfg: BackupConfig, w: World, source: Source, order: seq<ArchiveName>,
                            migration: bool, stamp: Stamp, f: CommitFaults, r: RunOutcome, x: World)
  {
    var dec := DecisionFor(site, cfg, w.disk, source, order, migration);
    match r
    case NoChanges => dec == NothingToDo && x == w
    case Rejected => (dec == ScanError || dec == NoType) && x == w
    case Done(outcome) =>
      dec.Make? && Delivered(w, BackupFor(site, cfg, w.disk, source, order, migration, stamp), f, outcome, x)
  }

  /** Looks at the directory and scans the source before anything is made. */
  method Choose(store: BackupStore, cfg: BackupConfig, source: Source, order: seq<ArchiveName>, migration: bool)
    returns (dec: Decision, scan: ScanResult)
    ensures scan == Scanned(source, store.state, store.archives.Keys)
    ensures dec == DecisionFor(store.site, cfg, store.OnDisk(), source, order, migration)
  {
    var missing := FullBackupMissing(order);
    if migration { missing := true; }
    var limit := false;
    if cfg.mode == 2 && cfg.maxSmart > 0 && !missing {
      limit := SmartLimitReached(order, cfg.maxSmart);
    }
    scan := RunScan(source, store.state, store.archives.Keys);
    dec := Decide(cfg, missing, limit, scan, store.site.blacklisted);
  }

  method RunCore(store: BackupStore, cfg: BackupConfig, source: Source, order: seq<ArchiveName>, migration: bool,
                 stamp: Stamp, f: CommitFaults) returns (r: RunOutcome, ghost trace: seq<World>)
    requires TimeListing(store.archives, order)
    requires FreshStem(store.OnDisk(), StampStem(store.site, stamp))
    modifies store
    ensures RunEffect(store.site, cfg, old(store.Contents()), source, order, migration, stamp, f, r, store.Contents())
    ensures RunMeans(store.site, cfg, old(store.Contents()), source, order, migration, stamp, f, r, store.Contents())
    ensures if r.Done? then Trail(BackupFor(store.site, cfg, old(store.OnDisk()), source, order, migration, stamp).name,
                                  old(store.Contents()), trace, store.Contents())
            else trace == []
    ensures forall x | x in trace :: Absent(x) <= Absent(old(store.Contents()))
  {
    var dec, scan := Choose(store, cfg, source, order, migration);
    r, trace := CarryOut(store, dec, scan, cfg, source, order, migration, stamp, f);
    EffectMeans(store.site, cfg, old(store.Contents()), source, order, migration, stamp, f, r, store.Contents());
  }

  /** Makes what was decided. */
  method CarryOut(store: BackupStore, dec: Decision, scan: ScanResult, ghost cfg: BackupConfig, source: Source,
                  ghost order: seq<ArchiveName>, ghost migration: bool, stamp: Stamp, f: CommitFaults)
    returns (r: RunOutcome, ghost trace: seq<World>)
    requires scan == Scanned(source, store.state, store.archives.Keys)
    requires dec == DecisionFor(store.site, cfg, store.OnDisk(), source, order, migration)
    requires FreshStem(store.OnDisk(), StampStem(store.site, stamp))
    modifies store
    ensures RunEffect(store.site, cfg, old(store.Contents()), source, order, migration, stamp, f, r, store.Contents())
    ensures if r.Done? then Trail(BackupFor(store.site, cfg, old(store.OnDisk()), source, order, migration, stamp).name,
                                  old(store.Contents()), trace, store.Contents())
            else trace == []
    ensures forall x | x in trace :: Absent(x) <= Absent(old(store.Contents()))
  {
    trace := [];
    match dec
    case NothingToDo => r := NoChanges;
    case ScanError => r := Rejected;
    case NoType => r := Rejected;
    case Make(_, _, _, _, _, _) =>
      var b := Build(store.site, dec, scan, source, stamp);
      NameIsFree(store.OnDisk(), b.name);
      BaseExists(store.site, cfg, store.OnDisk(), source, order, migration, stamp);
      var outcome;
      outcome, trace := Deliver(store, b, f);
      r := Done(outcome);
  }

  method Deliver(store: BackupStore, b: NewBackup, f: CommitFaults) returns (outcome: CommitOutcome, ghost trace: seq<World>)
    requires b.name !in store.archives && b.name !in store.records
    requires b.entry.backupFile == b.name
    requires RecordOf(b).basedOn in store.archives.Keys + {b.name}
    modifies store
    ensures Delivered(old(store.Contents()), b, f, outcome, store.Contents())
    ensures Trail(b.name, old(store.Contents()), trace, store.Contents())
    ensures forall x | x in trace :: Absent(x) <= Absent(old(store.Contents()))
  {
    outcome, trace := Commit(store, b, f);
  }

  lemma NameIsFree(d: Disk, n: ArchiveName)
    requires n.Named? && FreshStem(d, n.stem)
    ensures n !in d.archives && n !in d.records
  {
    assert n !in InPlay(d);
  }

  /** What the scan's status says about the saved state and the source. */
  lemma ScanFacts(source: Source, state: Option<MetadataState>, archives: set<ArchiveName>)
    ensures var scan := Scanned(source, state, archives);
      && (scan.status != ScanFailed ==> Collect(source).Some? && scan.current == Collect(source).value)
      && (scan.status == NoChange || scan.status == ChangesDetected ==>
            && state.Some? && scan.last == state.value.last && scan.basedOn == state.value.basedOn
            && scan.last != NoArchive && scan.last in archives
            && (scan.basedOn != NoArchive ==> scan.basedOn in archives)
            && scan.changes == Diff(state.value.files, scan.current)
            && scan.changed == Candidates(state.value.files, scan.current))
  {}

  lemma BaseExists(site: Site, cfg: BackupConfig, d: Disk, source: Source, order: seq<ArchiveName>, migration: bool,
                   stamp: Stamp)
    requires DecisionFor(site, cfg, d, source, order, migration).Make?
    ensures var b := BackupFor(site, cfg, d, source, order, migration, stamp);
      RecordOf(b).basedOn in d.archives.Keys + {b.name}
  {
    var missing := migration || !HasFullLike(order);
    var limit := cfg.mode == 2 && cfg.maxSmart > 0 && !missing && LimitReached(order, cfg.maxSmart);
    ScanFacts(source, d.state, d.archives.Keys);
    DecideFacts(cfg, missing, limit, Scanned(source, d.state, d.archives.Keys), site.blacklisted);
  }

  // ---- what a run decides, in terms of source, saved state and directory ----

  /** There is a readable saved state, and the archives it names are there. */
  ghost predicate Usable(d: Disk)
  {
    && d.state.Some? && StatesValid(d.state.value.files)
    && var s := d.state.value;
       s.last != NoArchive && s.last in d.archives && (s.basedOn != NoArchive ==> s.basedOn in d.archives)
  }

  /** The path is in neither, or in both with the same size and time. */
  predicate Unchanged(saved: States, source: Source, p: Path)
  {
    && (p in saved <==> p in source)
    && (p in saved && p in source ==>
          saved[p].size == source[p].state.size && saved[p].lastWrite == source[p].state.lastWrite)
  }

  /** A full backup is required. */
  ghost predicate Required(cfg: BackupConfig, d: Disk, order: seq<ArchiveName>, migration: bool)
  {
    || !Usable(d) || migration || !HasFullLike(order)
    || (cfg.mode == 2 && cfg.maxSmart > 0 && SmartRun(order) >= cfg.maxSmart)
  }

  /** No backup is made: no file at all changed and unchanged worlds are skipped; or, with no full backup required, no
      file that counts changed and unchanged worlds are skipped or backed up by changes; or a full-like archive other
      than an Overwrite would be empty. */
  ghost predicate Skips(site: Site, cfg: BackupConfig, d: Disk, source: Source, order: seq<ArchiveName>, migration: bool)
  {
    || (cfg.skipIfUnchanged && Usable(d) && forall p :: Unchanged(d.state.value.files, source, p))
    || (!Required(cfg, d, order, migration) && (cfg.skipIfUnchanged || cfg.mode == 2)
        && forall p | !site.blacklisted(p) :: Unchanged(d.state.value.files, source, p))
    || (cfg.mode != 3 && (cfg.mode != 2 || Required(cfg, d, order, migration)) && forall p | p in source :: site.blacklisted(p))
  }

  /** The type of what is made. */
  ghost function KindMade(cfg: BackupConfig, d: Disk, order: seq<ArchiveName>, migration: bool): Kind
  {
    if cfg.mode == 3 then Overwrite
    else if cfg.mode == 1 || Required(cfg, d, order, migration) then Full
    else if cfg.mode == 2 then Smart
    else Untyped
  }

  lemma NoDifference(saved: States, all: States)
    ensures Diff(saved, all) == NO_CHANGES
       <==> AddedPaths(saved, all) == {} && ModifiedPaths(saved, all) == {} && AddedPaths(all, saved) == {}
  {
    ListingEmpty(AddedPaths(saved, all));
    ListingEmpty(ModifiedPaths(saved, all));
    ListingEmpty(AddedPaths(all, saved));
  }

  function StatesOf(source: Source): States { map p | p in source :: source[p].state }

  lemma NoneDiffers(saved: States, source: Source)
    ensures Diff(saved, StatesOf(source)) == NO_CHANGES <==> forall p :: Unchanged(saved, source, p)
  {
    var all := StatesOf(source);
    NoDifference(saved, all);
    forall p ensures Unchanged(saved, source, p)
                <==> p !in AddedPaths(saved, all) && p !in ModifiedPaths(saved, all) && p !in AddedPaths(all, saved) {}
    if p :| !Unchanged(saved, source, p) {
      assert p in AddedPaths(saved, all) || p in ModifiedPaths(saved, all) || p in AddedPaths(all, saved);
    }
  }

  /** The source without blacklisted files. */
  function Visible(source: Source, dropped: Path -> bool): Source { map p | p in source && !dropped(p) :: source[p] }

  lemma NoVisibleDiffers(saved: States, source: Source, dropped: Path -> bool)
    ensures FilterChanges(Diff(saved, StatesOf(source)), dropped) == NO_CHANGES
       <==> forall p | !dropped(p) :: Unchanged(saved, source, p)
  {
    var p0, visible := FilterStates(saved, dropped), Visible(source, dropped);
    FilteredDiff(saved, StatesOf(source), dropped);
    assert FilterStates(StatesOf(source), dropped) == StatesOf(visible);
    NoneDiffers(p0, visible);
    forall p ensures Unchanged(p0, visible, p) <==> dropped(p) || Unchanged(saved, source, p) {}
  }

  /** When only changes are stored: something is stored or deleted unless nothing visible changed. */
  lemma ChangesShow(saved: States, all: States, dropped: Path -> bool)
    ensures var c := FilterChanges(Diff(saved, all), dropped);
      Kept(Candidates(saved, all), Allowed(dropped)) == [] && c.deleted == [] ==> c == NO_CHANGES
  {
    var c, kept := FilterChanges(Diff(saved, all), dropped), Kept(Candidates(saved, all), Allowed(dropped));
    if kept == [] {
      forall p ensures p !in c.added && p !in c.modified {
        KeptElems(Diff(saved, all).added, Allowed(dropped), p);
        KeptElems(Diff(saved, all).modified, Allowed(dropped), p);
        KeptElems(Candidates(saved, all), Allowed(dropped), p);
        CandidateElems(saved, all, p);
      }
      assert Elems(c.added) == {} && Elems(c.modified) == {};
      NoElems(c.added);
      NoElems(c.modified);
    }
  }

  lemma CandidateElems(saved: States, all: States, p: Path)
    ensures p in Diff(saved, all).added || p in Diff(saved, all).modified ==> p in Candidates(saved, all)
  {
    assert p in Diff(saved, all).added <==> p in Elems(Diff(saved, all).added);
    assert p in Diff(saved, all).modified <==> p in Elems(Diff(saved, all).modified);
    assert p in Candidates(saved, all) <==> p in Elems(Candidates(saved, all));
  }

  lemma NothingVisible(source: Source, dropped: Path -> bool)
    ensures Listing(FilterStates(StatesOf(source), dropped).Keys) == [] <==> forall p | p in source :: dropped(p)
  {
    var keys := FilterStates(StatesOf(source), dropped).Keys;
    ListingEmpty(keys);
    if p :| p in source && !dropped(p) { assert p in keys; }
  }

  /** The outcome that source and saved state call for. */
  ghost predicate Called(site: Site, cfg: BackupConfig, d: Disk, source: Source, order: seq<ArchiveName>, migration: bool,
                         dec: Decision)
  {
    && (dec == ScanError <==> Collect(source).None?)
    && (dec == NothingToDo <==> Collect(source).Some? && Skips(site, cfg, d, source, order, migration))
    && (dec.Make? ==> dec.kind == KindMade(cfg, d, order, migration))
    && (dec.Make? ==> KindMade(cfg, d, order, migration) != Untyped)
    && (dec == NoType ==> KindMade(cfg, d, order, migration) == Untyped)
  }

  lemma ForcedDecision(site: Site, cfg: BackupConfig, d: Disk, source: Source, order: seq<ArchiveName>, migration: bool)
    requires Collect(source).Some? && !Usable(d)
    ensures Called(site, cfg, d, source, order, migration, DecisionFor(site, cfg, d, source, order, migration))
  {
    NothingVisible(source, site.blacklisted);
    var scan := Scanned(source, d.state, d.archives.Keys);
    assert scan.status == MetadataInvalid || scan.status == BaseBackupMissing;
  }

  /** A decision over a usable state: `same` says that no file changed, `none` that no file that counts did, `idle` that
      no change is stored and no deletion recorded, `hidden` that no file counts. */
  ghost predicate DecidedBy(cfg: BackupConfig, force: bool, same: bool, none: bool, idle: bool, hidden: bool, dec: Decision)
  {
    && dec != ScanError
    && (dec == NothingToDo <==>
          || (same && cfg.skipIfUnchanged)
          || (!force && none && (cfg.skipIfUnchanged || cfg.mode == 2))
          || (cfg.mode != 3 && if cfg.mode == 2 && !force then idle else hidden))
    && (dec.Make? ==>
          && dec.kind == (if cfg.mode == 3 then Overwrite else if cfg.mode == 1 || force then Full else Smart)
          && (force || cfg.mode == 1 || cfg.mode == 2 || cfg.mode == 3))
    && (dec == NoType ==> !force && cfg.mode != 1 && cfg.mode != 2 && cfg.mode != 3)
  }

  lemma UsableDecision(cfg: BackupConfig, missing: bool, limit: bool, scan: ScanResult, dropped: Path -> bool)
    requires scan.status == NoChange || scan.status == ChangesDetected
    requires scan.last != NoArchive
    ensures var c := FilterChanges(scan.changes, dropped);
      DecidedBy(cfg, missing || limit, scan.status == NoChange, c == NO_CHANGES,
                Kept(scan.changed, Allowed(dropped)) == [] && c.deleted == [],
                Listing(FilterStates(scan.current, dropped).Keys) == [],
                Decide(cfg, missing, limit, scan, dropped))
  {}

  /** What the comparison with a usable state shows. */
  lemma ComparisonShows(d: Disk, source: Source, dropped: Path -> bool)
    requires Collect(source).Some? && Usable(d)
    ensures var scan := Scanned(source, d.state, d.archives.Keys); var c := FilterChanges(scan.changes, dropped);
      && (scan.status == NoChange || scan.status == ChangesDetected) && scan.last != NoArchive
      && (scan.status == NoChange <==> forall p :: Unchanged(d.state.value.files, source, p))
      && (c == NO_CHANGES <==> forall p | !dropped(p) :: Unchanged(d.state.value.files, source, p))
      && (Kept(scan.changed, Allowed(dropped)) == [] && c.deleted == [] ==> c == NO_CHANGES)
      && (Listing(FilterStates(scan.current, dropped).Keys) == [] <==> forall p | p in source :: dropped(p))
  {
    NothingVisible(source, dropped);
    NoneDiffers(d.state.value.files, source);
    NoVisibleDiffers(d.state.value.files, source, dropped);
    ChangesShow(d.state.value.files, StatesOf(source), dropped);
    assert Collect(source).value == StatesOf(source);
  }

  lemma DecidedIsCalled(site: Site, cfg: BackupConfig, d: Disk, source: Source, order: seq<ArchiveName>, migration: bool,
                        same: bool, none: bool, idle: bool, hidden: bool, dec: Decision)
    requires Collect(source).Some? && Usable(d)
    requires DecidedBy(cfg, Required(cfg, d, order, migration), same, none, idle, hidden, dec)
    requires same <==> forall p :: Unchanged(d.state.value.files, source, p)
    requires none <==> forall p | !site.blacklisted(p) :: Unchanged(d.state.value.files, source, p)
    requires idle ==> none
    requires hidden <==> forall p | p in source :: site.blacklisted(p)
    ensures Called(site, cfg, d, source, order, migration, dec)
  {}

  lemma ComparedDecision(site: Site, cfg: BackupConfig, d: Disk, source: Source, order: seq<ArchiveName>, migration: bool)
    requires Collect(source).Some? && Usable(d)
    ensures Called(site, cfg, d, source, order, migration, DecisionFor(site, cfg, d, source, order, migration))
  {
    var missing := migration || !HasFullLike(order);
    var limit := cfg.mode == 2 && cfg.maxSmart > 0 && !missing && LimitReached(order, cfg.maxSmart);
    var scan := Scanned(source, d.state, d.archives.Keys);
    var c := FilterChanges(scan.changes, site.blacklisted);
    ComparisonShows(d, source, site.blacklisted);
    UsableDecision(cfg, missing, limit, scan, site.blacklisted);
    assert missing || limit <==> Required(cfg, d, order, migration);
    DecidedIsCalled(site, cfg, d, source, order, migration, scan.status == NoChange, c == NO_CHANGES,
                    Kept(scan.changed, Allowed(site.blacklisted)) == [] && c.deleted == [],
                    Listing(FilterStates(scan.current, site.blacklisted).Keys) == [],
                    DecisionFor(site, cfg, d, source, order, migration));
  }

  /** Exactly when a run makes nothing, and of which type what it makes is. */
  lemma DecisionIs(site: Site, cfg: BackupConfig, d: Disk, source: Source, order: seq<ArchiveName>, migration: bool)
    ensures Called(site, cfg, d, source, order, migration, DecisionFor(site, cfg, d, source, order, migration))
  {
    if Collect(source).Some? {
      if Usable(d) {
        ComparedDecision(site, cfg, d, source, order, migration);
      } else {
        ForcedDecision(site, cfg, d, source, order, migration);
      }
    }
  }

  // ---- properties of the decision ----

  /** What kind of archive is made, of which files. */
  lemma DecideFacts(cfg: BackupConfig, missing: bool, limit: bool, scan: ScanResult, blacklisted: Path -> bool)
    requires Decide(cfg, missing, limit, scan, blacklisted).Make?
    requires scan.status == NoChange || scan.status == ChangesDetected ==> scan.last != NoArchive
    ensures var dec := Decide(cfg, missing, limit, scan, blacklisted);
      && scan.status != ScanFailed
      && dec.current == FilterStates(scan.current, blacklisted)
      && dec.changes == FilterChanges(scan.changes, blacklisted)
      && if IsSmart(dec.kind) then
           && cfg.mode == 2 && !missing && !limit
           && (scan.status == NoChange || scan.status == ChangesDetected)
           && dec.basedOn == (if scan.basedOn == NoArchive then scan.last else scan.basedOn)
           && dec.basedOn != NoArchive
           && dec.files == Kept(scan.changed, Allowed(blacklisted))
           && (dec.marker ==> dec.files == [])
         else
           && IsFullLike(dec.kind) && dec.basedOn == NoArchive
           && dec.files == Listing(dec.current.Keys)
           && (dec.marker ==> dec.files == [])
  {}

  /** A Smart archive is made only on top of the archive named by the saved state, when that archive
      and its base are still there; its lists are the exact difference to the saved files. */
  lemma SmartNeedsBase(site: Site, cfg: BackupConfig, d: Disk, source: Source, order: seq<ArchiveName>, migration: bool)
    requires var dec := DecisionFor(site, cfg, d, source, order, migration); dec.Make? && IsSmart(dec.kind)
    ensures cfg.mode == 2 && d.state.Some? && Collect(source).Some?
    ensures cfg.maxSmart > 0 ==> HasFullLike(order) && SmartRun(order) < cfg.maxSmart
    ensures d.state.value.last in d.archives && d.state.value.last != NoArchive
    ensures Scanned(source, d.state, d.archives.Keys).last == d.state.value.last
    ensures var dec, s, all := DecisionFor(site, cfg, d, source, order, migration), d.state.value, Collect(source).value;
      && dec.basedOn == (if s.basedOn == NoArchive then s.last else s.basedOn)
      && dec.current == FilterStates(all, site.blacklisted)
      && dec.changes == FilterChanges(Diff(s.files, all), site.blacklisted)
      && dec.files == Kept(Candidates(s.files, all), Allowed(site.blacklisted))
      && (dec.marker ==> dec.files == [])
  {
    var missing := migration || !HasFullLike(order);
    var limit := cfg.mode == 2 && cfg.maxSmart > 0 && !missing && LimitReached(order, cfg.maxSmart);
    ScanFacts(source, d.state, d.archives.Keys);
    DecideFacts(cfg, missing, limit, Scanned(source, d.state, d.archives.Keys), site.blacklisted);
  }

  /** A checkpoint always takes every file that is not blacklisted; the fallback that would store
      only the changed files as a Full archive is never reached. */
  lemma CheckpointTakesAll(site: Site, cfg: BackupConfig, d: Disk, source: Source, order: seq<ArchiveName>, migration: bool)
    requires var dec := DecisionFor(site, cfg, d, source, order, migration); dec.Make? && !IsSmart(dec.kind)
    ensures Collect(source).Some?
    ensures var dec := DecisionFor(site, cfg, d, source, order, migration);
      && IsFullLike(dec.kind) && dec.basedOn == NoArchive
      && dec.current == FilterStates(Collect(source).value, site.blacklisted)
      && dec.files == Listing(dec.current.Keys)
      && (dec.marker ==> dec.files == [])
  {
    var missing := migration || !HasFullLike(order);
    var limit := cfg.mode == 2 && cfg.maxSmart > 0 && !missing && LimitReached(order, cfg.maxSmart);
    ScanFacts(source, d.state, d.archives.Keys);
    DecideFacts(cfg, missing, limit, Scanned(source, d.state, d.archives.Keys), site.blacklisted);
  }

  /** When the newest archive is gone, whatever is made next is a checkpoint. */
  lemma GoneTailForcesCheckpoint(site: Site, cfg: BackupConfig, d: Disk, source: Source, order: seq<ArchiveName>, migration: bool)
    requires d.state.None? || d.state.value.last !in d.archives
    ensures var dec := DecisionFor(site, cfg, d, source, order, migration); dec.Make? ==> IsFullLike(dec.kind)
  {
    var dec := DecisionFor(site, cfg, d, source, order, migration);
    if dec.Make? && IsSmart(dec.kind) {
      SmartNeedsBase(site, cfg, d, source, order, migration);
    }
  }

  // ---- what a created backup leaves ----

  /** The archive of a Smart backup holds the files that count and changed, any other archive all that count; it has
      the marker just when it holds no file. */
  ghost predicate ArchiveIs(site: Site, d: Disk, source: Source, kind: Kind, time: int, a: Archive)
    requires IsSmart(kind) ==> d.state.Some?
  {
    && a.time == time && (a.marker <==> a.files == map[])
    && forall p ::
         && (p in a.files <==> p in source && !site.blacklisted(p) && (IsSmart(kind) ==> !Unchanged(d.state.value.files, source, p)))
         && (p in a.files && p in source ==> a.files[p] == source[p].content)
  }

  /** A Smart record lists what was added, modified and deleted since the saved state; any other lists all that counts,
      as added and as its full list. */
  ghost predicate ListsAre(site: Site, d: Disk, source: Source, kind: Kind, r: ChangeRecord)
    requires IsSmart(kind) ==> d.state.Some?
  {
    forall p ::
      if IsSmart(kind) then
        var saved := d.state.value.files;
        && (p in r.changes.added <==> p in source && p !in saved && !site.blacklisted(p))
        && (p in r.changes.modified <==> p in source && p in saved && !Unchanged(saved, source, p) && !site.blacklisted(p))
        && (p in r.changes.deleted <==> p !in source && p in saved && !site.blacklisted(p))
        && p !in r.fullList
      else
        && (p in r.changes.added <==> p in source && !site.blacklisted(p))
        && (p in r.fullList <==> p in source && !site.blacklisted(p))
        && p !in r.changes.modified && p !in r.changes.deleted
  }

  /** A checkpoint is its own base; a Smart archive has the base of the saved state, or else the archive it follows. */
  ghost function BaseMade(d: Disk, kind: Kind, name: ArchiveName): ArchiveName
    requires IsSmart(kind) ==> d.state.Some?
  {
    if !IsSmart(kind) then name
    else if d.state.value.basedOn == NoArchive then d.state.value.last else d.state.value.basedOn
  }

  /** The whole of what a completed backup leaves, in terms of source, saved state, clock and comment. */
  ghost predicate CreatedAs(site: Site, w: World, source: Source, kind: Kind, stamp: Stamp, x: World)
  {
    && (IsSmart(kind) ==> w.disk.state.Some?)
    && var name := GeneratedName(kind, site.worldName, stamp.comment, stamp.parts);
       var base := BaseMade(w.disk, kind, name);
       && name !in w.disk.archives && name !in w.disk.records
       && name in x.disk.archives && x.disk.archives - {name} == w.disk.archives
       && name in x.disk.records && x.disk.records - {name} == w.disk.records
       && ArchiveIs(site, w.disk, source, kind, stamp.time, x.disk.archives[name])
       && ListsAre(site, w.disk, source, kind, x.disk.records[name])
       && (var r := x.disk.records[name];
           && r.archive == name && r.backupType == kind && r.basedOn == base && r.createdAt == stamp.createdAt
           && r.previous == if IsSmart(kind) then w.disk.state.value.last else NoArchive)
       && x.disk.state == Some(MetadataState(stamp.timestamp, name, base, StatesOf(Visible(source, site.blacklisted))))
       && x.history == w.history + [HistoryEntry(site.scope.configId, stamp.timestamp, site.worldPath, site.worldName,
                                                 name, kind, IsSmart(kind), stamp.comment, false, false, "", "", "", "")]
  }

  lemma ListedFiles(source: Source, files: seq<Path>, dropped: Path -> bool)
    requires files == Listing(FilterStates(StatesOf(source), dropped).Keys)
    ensures forall p :: p in files <==> p in source && !dropped(p)
    ensures forall p ::
      && (p in Archived(source, files) <==> p in source && !dropped(p))
      && (p in Archived(source, files) ==> Archived(source, files)[p] == source[p].content)
    ensures files == [] <==> Archived(source, files) == map[]
  {
    var keys := FilterStates(StatesOf(source), dropped).Keys;
    forall p ensures p in files <==> p in source && !dropped(p) { assert p in files <==> p in Elems(files); }
    NoElems(files);
    if files != [] { assert files[0] in files && files[0] in Archived(source, files); }
  }

  lemma ChangedFiles(saved: States, source: Source, dropped: Path -> bool)
    ensures var files := Kept(Candidates(saved, StatesOf(source)), Allowed(dropped));
            var c := FilterChanges(Diff(saved, StatesOf(source)), dropped);
      && (forall p ::
            && (p in c.added <==> p in source && p !in saved && !dropped(p))
            && (p in c.modified <==> p in source && p in saved && !Unchanged(saved, source, p) && !dropped(p))
            && (p in c.deleted <==> p !in source && p in saved && !dropped(p))
            && (p in Archived(source, files) <==> p in source && !dropped(p) && !Unchanged(saved, source, p))
            && (p in Archived(source, files) ==> Archived(source, files)[p] == source[p].content))
      && (files == [] <==> Archived(source, files) == map[])
  {
    var all := StatesOf(source);
    var files, d := Kept(Candidates(saved, all), Allowed(dropped)), Diff(saved, all);
    forall p
      ensures p in FilterChanges(d, dropped).added <==> p in source && p !in saved && !dropped(p)
      ensures p in FilterChanges(d, dropped).modified <==> p in source && p in saved && !Unchanged(saved, source, p) && !dropped(p)
      ensures p in FilterChanges(d, dropped).deleted <==> p !in source && p in saved && !dropped(p)
      ensures p in files <==> p in source && !dropped(p) && !Unchanged(saved, source, p)
    {
      ChangedAt(saved, source, dropped, p);
    }
    NoElems(files);
    if files != [] { assert files[0] in files && files[0] in Archived(source, files); }
  }

  lemma ChangedAt(saved: States, source: Source, dropped: Path -> bool, p: Path)
    ensures var all := StatesOf(source); var c := FilterChanges(Diff(saved, all), dropped);
      && (p in c.added <==> p in source && p !in saved && !dropped(p))
      && (p in c.modified <==> p in source && p in saved && !Unchanged(saved, source, p) && !dropped(p))
      && (p in c.deleted <==> p !in source && p in saved && !dropped(p))
      && (p in Kept(Candidates(saved, all), Allowed(dropped)) <==> p in source && !dropped(p) && !Unchanged(saved, source, p))
  {
    var all := StatesOf(source);
    var d := Diff(saved, all);
    KeptElems(d.added, Allowed(dropped), p);
    KeptElems(d.modified, Allowed(dropped), p);
    KeptElems(d.deleted, Allowed(dropped), p);
    KeptElems(Candidates(saved, all), Allowed(dropped), p);
    assert p in d.added <==> p in Elems(d.added);
    assert p in d.modified <==> p in Elems(d.modified);
    assert p in d.deleted <==> p in Elems(d.deleted);
    assert p in Candidates(saved, all) <==> p in Elems(Candidates(saved, all));
  }

  /** Of an archive to be made: its name, its files and lists, and everything else that is stored of it. */
  ghost predicate BackupIs(site: Site, d: Disk, source: Source, kind: Kind, stamp: Stamp, b: NewBackup)
  {
    && (IsSmart(kind) ==> d.state.Some?)
    && b.name == GeneratedName(kind, site.worldName, stamp.comment, stamp.parts)
    && ArchiveIs(site, d, source, kind, stamp.time, b.archive)
    && ListsAre(site, d, source, kind, RecordOf(b))
    && DetailsAre(site, d, source, kind, stamp, b)
  }

  ghost predicate DetailsAre(site: Site, d: Disk, source: Source, kind: Kind, stamp: Stamp, b: NewBackup)
    requires IsSmart(kind) ==> d.state.Some?
  {
    && RecordOf(b).(changes := ChangeSet([], [], []), fullList := [])
         == ChangeRecord(b.name, kind, BaseMade(d, kind, b.name), if IsSmart(kind) then d.state.value.last else NoArchive,
                         stamp.createdAt, ChangeSet([], [], []), [])
    && StateOf(b) == MetadataState(stamp.timestamp, b.name, BaseMade(d, kind, b.name), StatesOf(Visible(source, site.blacklisted)))
    && b.entry == HistoryEntry(site.scope.configId, stamp.timestamp, site.worldPath, site.worldName,
                               b.name, kind, IsSmart(kind), stamp.comment, false, false, "", "", "", "")
  }

  lemma CommittedAs(site: Site, w: World, source: Source, kind: Kind, stamp: Stamp, b: NewBackup)
    requires BackupIs(site, w.disk, source, kind, stamp, b)
    requires b.name !in w.disk.archives && b.name !in w.disk.records
    ensures CreatedAs(site, w, source, kind, stamp, Committed(w, b))
  {
    var x := Committed(w, b);
    assert x.disk.archives - {b.name} == w.disk.archives;
    assert x.disk.records - {b.name} == w.disk.records;
  }

  lemma SmartIs(site: Site, d: Disk, source: Source, stamp: Stamp, dec: Decision, scan: ScanResult)
    requires d.state.Some? && dec.Make? && dec.kind == Smart
    requires scan.last == d.state.value.last
    requires dec.basedOn == (if d.state.value.basedOn == NoArchive then d.state.value.last else d.state.value.basedOn)
    requires dec.basedOn != NoArchive
    requires dec.current == StatesOf(Visible(source, site.blacklisted))
    requires dec.changes == FilterChanges(Diff(d.state.value.files, StatesOf(source)), site.blacklisted)
    requires dec.files == Kept(Candidates(d.state.value.files, StatesOf(source)), Allowed(site.blacklisted))
    requires dec.marker <==> dec.files == []
    ensures BackupIs(site, d, source, Smart, stamp, Build(site, dec, scan, source, stamp))
  {
    var b := Build(site, dec, scan, source, stamp);
    SmartArchive(site, d, source, stamp.time, dec.marker, dec.files, b.archive);
    SmartLists(site, d, source, RecordOf(b));
    BuiltDetails(site, d, source, stamp, dec, scan, b);
  }

  lemma SmartArchive(site: Site, d: Disk, source: Source, time: int, marker: bool, files: seq<Path>, a: Archive)
    requires d.state.Some?
    requires files == Kept(Candidates(d.state.value.files, StatesOf(source)), Allowed(site.blacklisted))
    requires a == Archive(Archived(source, files), marker, time) && (marker <==> files == [])
    ensures ArchiveIs(site, d, source, Smart, time, a)
  {
    ChangedFiles(d.state.value.files, source, site.blacklisted);
  }

  lemma SmartLists(site: Site, d: Disk, source: Source, r: ChangeRecord)
    requires d.state.Some? && r.fullList == []
    requires r.changes == FilterChanges(Diff(d.state.value.files, StatesOf(source)), site.blacklisted)
    ensures ListsAre(site, d, source, Smart, r)
  {
    ChangedFiles(d.state.value.files, source, site.blacklisted);
  }

  lemma CheckpointIs(site: Site, d: Disk, source: Source, stamp: Stamp, dec: Decision, scan: ScanResult)
    requires dec.Make? && IsFullLike(dec.kind) && dec.basedOn == NoArchive
    requires dec.current == StatesOf(Visible(source, site.blacklisted))
    requires dec.files == Listing(FilterStates(StatesOf(source), site.blacklisted).Keys)
    requires dec.marker <==> dec.files == []
    ensures BackupIs(site, d, source, dec.kind, stamp, Build(site, dec, scan, source, stamp))
  {
    var b := Build(site, dec, scan, source, stamp);
    FullArchive(site, d, source, dec.kind, stamp.time, dec.marker, dec.files, b.archive);
    assert FilterStates(StatesOf(source), site.blacklisted) == StatesOf(Visible(source, site.blacklisted));
    FullLists(site, d, source, dec.kind, dec.files, RecordOf(b));
    BuiltDetails(site, d, source, stamp, dec, scan, b);
  }

  lemma FullArchive(site: Site, d: Disk, source: Source, kind: Kind, time: int, marker: bool, files: seq<Path>, a: Archive)
    requires !IsSmart(kind) && files == Listing(FilterStates(StatesOf(source), site.blacklisted).Keys)
    requires a == Archive(Archived(source, files), marker, time) && (marker <==> files == [])
    ensures ArchiveIs(site, d, source, kind, time, a)
  {
    ListedFiles(source, files, site.blacklisted);
  }

  lemma FullLists(site: Site, d: Disk, source: Source, kind: Kind, files: seq<Path>, r: ChangeRecord)
    requires !IsSmart(kind) && files == Listing(FilterStates(StatesOf(source), site.blacklisted).Keys)
    requires r.changes == ChangeSet(files, [], []) && r.fullList == files
    ensures ListsAre(site, d, source, kind, r)
  {
    ListedFiles(source, files, site.blacklisted);
  }

  lemma BuiltDetails(site: Site, d: Disk, source: Source, stamp: Stamp, dec: Decision, scan: ScanResult, b: NewBackup)
    requires dec.Make? && b == Build(site, dec, scan, source, stamp)
    requires dec.current == StatesOf(Visible(source, site.blacklisted))
    requires IsSmart(dec.kind) ==>
      && d.state.Some? && scan.last == d.state.value.last && dec.basedOn == BaseMade(d, Smart, b.name) && dec.basedOn != NoArchive
    requires !IsSmart(dec.kind) ==> IsFullLike(dec.kind) && dec.basedOn == NoArchive
    ensures DetailsAre(site, d, source, dec.kind, stamp, b)
  {}

  lemma MarkerIsEmpty(cfg: BackupConfig, missing: bool, limit: bool, scan: ScanResult, blacklisted: Path -> bool)
    requires scan.status == NoChange || scan.status == ChangesDetected ==> scan.last != NoArchive
    ensures var dec := Decide(cfg, missing, limit, scan, blacklisted); dec.Make? ==> (dec.marker <==> dec.files == [])
  {}

  lemma MarkedWhenEmpty(site: Site, cfg: BackupConfig, d: Disk, source: Source, order: seq<ArchiveName>, migration: bool)
    ensures var dec := DecisionFor(site, cfg, d, source, order, migration); dec.Make? ==> (dec.marker <==> dec.files == [])
  {
    var missing := migration || !HasFullLike(order);
    ScanFacts(source, d.state, d.archives.Keys);
    MarkerIsEmpty(cfg, missing, cfg.mode == 2 && cfg.maxSmart > 0 && !missing && LimitReached(order, cfg.maxSmart),
                  Scanned(source, d.state, d.archives.Keys), site.blacklisted);
  }

  lemma VisibleStates(source: Source, dropped: Path -> bool)
    ensures Collect(source).Some? ==> FilterStates(Collect(source).value, dropped) == StatesOf(Visible(source, dropped))
    ensures Collect(source).Some? ==> Collect(source).value == StatesOf(source)
  {
    assert FilterStates(StatesOf(source), dropped) == StatesOf(Visible(source, dropped));
  }

  /** What is built for a decision to make a backup. */
  lemma MadeIs(site: Site, cfg: BackupConfig, d: Disk, source: Source, order: seq<ArchiveName>, migration: bool, stamp: Stamp,
               dec: Decision, b: NewBackup)
    requires dec == DecisionFor(site, cfg, d, source, order, migration) && dec.Make?
    requires b == Build(site, dec, Scanned(source, d.state, d.archives.Keys), source, stamp)
    ensures BackupIs(site, d, source, dec.kind, stamp, b)
  {
    var scan := Scanned(source, d.state, d.archives.Keys);
    VisibleStates(source, site.blacklisted);
    MarkedWhenEmpty(site, cfg, d, source, order, migration);
    if IsSmart(dec.kind) {
      SmartNeedsBase(site, cfg, d, source, order, migration);
      SmartIs(site, d, source, stamp, dec, scan);
    } else {
      CheckpointTakesAll(site, cfg, d, source, order, migration);
      CheckpointIs(site, d, source, stamp, dec, scan);
    }
  }

  /** What a run does, in terms of source, saved state and directory: it makes nothing exactly when nothing is to be made,
      it refuses exactly when the source cannot be read or the mode has no archive type, and otherwise it makes an archive
      of the type called for, completely or, with a failing operation, not at all. */
  ghost predicate RunMeans(site: Site, cfg: BackupConfig, w: World, source: Source, order: seq<ArchiveName>,
                           migration: bool, stamp: Stamp, f: CommitFaults, r: RunOutcome, x: World)
  {
    var kind, skips := KindMade(cfg, w.disk, order, migration), Skips(site, cfg, w.disk, source, order, migration);
    && (r == NoChanges <==> Collect(source).Some? && skips)
    && (r == Rejected <==> Collect(source).None? || (kind == Untyped && !skips))
    && (!r.Done? ==> x == w)
    && (r == Done(Created) <==> r.Done? && f.AllSucceed())
    && (r == Done(Created) ==> CreatedAs(site, w, source, kind, stamp, x))
    && (r.Done? && f.AllButHistory() && f.RecoverySucceeds() ==> x == w)
    && (r.Done? && !f.AllSucceed() ==> x.history == w.history)
  }

  lemma EffectMeans(site: Site, cfg: BackupConfig, w: World, source: Source, order: seq<ArchiveName>,
                    migration: bool, stamp: Stamp, f: CommitFaults, r: RunOutcome, x: World)
    requires FreshStem(w.disk, StampStem(site, stamp))
    requires RunEffect(site, cfg, w, source, order, migration, stamp, f, r, x)
    ensures RunMeans(site, cfg, w, source, order, migration, stamp, f, r, x)
  {
    var dec := DecisionFor(site, cfg, w.disk, source, order, migration);
    DecisionIs(site, cfg, w.disk, source, order, migration);
    if dec.Make? {
      var b := Build(site, dec, Scanned(source, w.disk.state, w.disk.archives.Keys), source, stamp);
      MadeIs(site, cfg, w.disk, source, order, migration, stamp, dec, b);
      NameIsFree(w.disk, b.name);
      CommittedAs(site, w, source, dec.kind, stamp, b);
    }
  }

  lemma SmartFiles(site: Site, previous: States, all: States)
    requires forall p | p in previous :: !site.blacklisted(p)
    ensures var current := FilterStates(all, site.blacklisted);
      var changes := FilterChanges(Diff(previous, all), site.blacklisted);
      && changes == Diff(previous, current)
      && Elems(Kept(Candidates(previous, all), Allowed(site.blacklisted))) == Elems(changes.added) + Elems(changes.modified)
  {
    var current := FilterStates(all, site.blacklisted);
    FilterCommutes(previous, all, site.blacklisted);
    DiffFits(previous, current);
    DiffFits(previous, all);
    var kept := Kept(Candidates(previous, all), Allowed(site.blacklisted));
    forall p ensures p in Elems(kept) <==> p in Elems(Candidates(previous, current)) {
      KeptElems(Candidates(previous, all), Allowed(site.blacklisted), p);
      assert p in Candidates(previous, all) <==> p in Elems(Candidates(previous, all));
    }
  }
}
