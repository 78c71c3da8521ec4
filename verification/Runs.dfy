/** All runs of backups and removals: which of them keep the chain sound, and what restores do then. */
module Runs {
  import opened Names
  import opened Ordering
  import opened Delta
  import opened Chain
  import opened Format
  import opened Repair
  import opened History
  import opened Removal
  import opened Survival
  import opened Scan
  import opened Vault
  import opened Backup
  import opened Backups

  // ---- adding the newest link ----

  /** `e` holds every archive and record of the chain as `d` does. */
  ghost predicate Extends(d: Disk, e: Disk, chain: seq<ArchiveName>)
  {
    && Present(d, chain) && Present(e, chain)
    && forall k | 0 <= k < |chain| ::
         && e.archives[chain[k]].files == d.archives[chain[k]].files
         && e.records[chain[k]] == d.records[chain[k]]
  }

  lemma {:induction false} ExtendedReplay(d: Disk, e: Disk, chain: seq<ArchiveName>, longer: seq<ArchiveName>, i: nat)
    requires Extends(d, e, chain) && Links(d, chain) && i < |chain|
    requires chain <= longer && Present(e, longer)
    ensures Replay(e, longer, i) == Replay(d, chain, i)
  {
    assert Link(d, chain, i);
    assert longer[i] == chain[i];
    if IsSmart(chain[i].KindOf()) { ExtendedReplay(d, e, chain, longer, i - 1); }
    SameStep(d, chain, i, e, longer, i);
  }

  lemma ExtendedLink(d: Disk, e: Disk, chain: seq<ArchiveName>, longer: seq<ArchiveName>, i: nat)
    requires Extends(d, e, chain) && Links(d, chain) && i < |chain|
    requires chain <= longer && Present(e, longer)
    ensures Link(e, longer, i)
  {
    assert Link(d, chain, i);
    assert longer[i] == chain[i];
    if IsSmart(chain[i].KindOf()) {
      assert longer[i - 1] == chain[i - 1];
      ExtendedReplay(d, e, chain, longer, i - 1);
    }
  }

  lemma ExtendedChain(d: Disk, e: Disk, chain: seq<ArchiveName>, longer: seq<ArchiveName>)
    requires Extends(d, e, chain) && ChainOk(d, chain) && chain <= longer
    requires Present(e, longer) && Distinct(longer)
    requires forall i | |chain| <= i < |longer| :: Link(e, longer, i)
    ensures ChainOk(e, longer)
  {
    forall i | 0 <= i < |chain| ensures Link(e, longer, i) { ExtendedLink(d, e, chain, longer, i); }
  }

  // ---- a created backup ----

  /** The inputs of one run: the directory listing, a fresh name and a clock that does not run backwards. */
  ghost predicate GoodInputs(site: Site, w: World, order: seq<ArchiveName>, stamp: Stamp)
  {
    && TimeListing(w.disk.archives, order)
    && FreshStem(w.disk, StampStem(site, stamp))
    && forall e | e in OfWorld(site, w.history) :: !Less(stamp.timestamp, e.timestamp)
  }

  lemma ArchivedKeys(source: Source, files: seq<Path>, paths: set<Path>)
    requires forall p :: p in files <==> p in paths
    requires paths <= source.Keys
    ensures Archived(source, files).Keys == paths
  {}

  lemma ListingIn(s: set<Path>, p: Path)
    ensures p in Listing(s) <==> p in s
  {
    assert p in Listing(s) <==> p in Elems(Listing(s));
  }

  /** The facts that make a Smart backup the next link after the newest archive. */
  ghost predicate SmartFits(d: Disk, chain: seq<ArchiveName>, b: NewBackup)
  {
    && chain != [] && Present(d, chain)
    && b.previous == chain[|chain| - 1]
    && b.basedOn == d.records[chain[|chain| - 1]].basedOn && b.basedOn in d.archives && b.basedOn != NoArchive
    && WellListed(b.changes)
    && Consistent(b.changes, Replay(d, chain, |chain| - 1).Keys)
    && After(b.changes, Replay(d, chain, |chain| - 1).Keys) == b.current.Keys
    && b.archive.files.Keys == Elems(b.changes.added) + Elems(b.changes.modified)
  }

  /** A new name, and a history entry for it that is the world's latest. */
  ghost predicate NamedWell(site: Site, w: World, b: NewBackup)
  {
    && b.name.Named? && FreshStem(w.disk, b.name.stem)
    && b.entry.backupFile == b.name && site.Owns(b.entry) && EntryOk(site, b.entry)
    && (forall e | e in OfWorld(site, w.history) :: !Less(b.entry.timestamp, e.timestamp))
  }

  /** What a finished backup brings to the commit. */
  ghost predicate Fits(site: Site, w: World, b: NewBackup)
  {
    && NamedWell(site, w, b)
    && (forall p | p in b.current :: !site.blacklisted(p))
    && if IsSmart(b.name.kind) then SmartFits(w.disk, ChainOf(site, w), b)
       else IsFullLike(b.name.kind) && b.archive.files.Keys == b.current.Keys
  }

  // ---- a run's backup fits ----

  /** A Smart backup in terms of the saved state and the scanned source. */
  ghost predicate SmartOf(site: Site, d: Disk, source: Source, b: NewBackup)
  {
    && d.state.Some? && Collect(source).Some?
    && var s, all := d.state.value, Collect(source).value;
       && s.last in d.archives && s.last != NoArchive
       && b.previous == s.last && b.basedOn == (if s.basedOn == NoArchive then s.last else s.basedOn)
       && b.current == FilterStates(all, site.blacklisted)
       && b.changes == FilterChanges(Diff(s.files, all), site.blacklisted)
       && b.archive.files == Archived(source, Kept(Candidates(s.files, all), Allowed(site.blacklisted)))
  }

  lemma SmartBackupIs(site: Site, cfg: BackupConfig, d: Disk, source: Source, order: seq<ArchiveName>,
                      migration: bool, stamp: Stamp)
    requires var dec := DecisionFor(site, cfg, d, source, order, migration); dec.Make? && IsSmart(dec.kind)
    ensures SmartOf(site, d, source, BackupFor(site, cfg, d, source, order, migration, stamp))
  {
    SmartNeedsBase(site, cfg, d, source, order, migration);
  }

  lemma SmartOfFits(site: Site, w: World, source: Source, b: NewBackup)
    requires Inv(site, w) && SmartOf(site, w.disk, source, b)
    ensures SmartFits(w.disk, ChainOf(site, w), b)
    ensures forall p | p in w.disk.state.value.files :: !site.blacklisted(p)
  {
    var chain := ChainOf(site, w);
    var s, all := w.disk.state.value, Collect(source).value;
    BaseIsRoot(w.disk, chain, |chain| - 1);
    SmartLists(site, s.files, all, source, b);
  }

  lemma SmartLists(site: Site, saved: States, all: States, source: Source, b: NewBackup)
    requires forall p | p in saved :: !site.blacklisted(p)
    requires all.Keys == source.Keys
    requires b.current == FilterStates(all, site.blacklisted)
    requires b.changes == FilterChanges(Diff(saved, all), site.blacklisted)
    requires b.archive.files == Archived(source, Kept(Candidates(saved, all), Allowed(site.blacklisted)))
    ensures WellListed(b.changes) && Consistent(b.changes, saved.Keys) && After(b.changes, saved.Keys) == b.current.Keys
    ensures b.archive.files.Keys == Elems(b.changes.added) + Elems(b.changes.modified)
  {
    SmartFiles(site, saved, all);
    DiffFits(saved, b.current);
    var files := Kept(Candidates(saved, all), Allowed(site.blacklisted));
    var paths := Elems(b.changes.added) + Elems(b.changes.modified);
    forall p ensures p in files <==> p in paths { assert p in files <==> p in Elems(files); }
    ArchivedKeys(source, files, paths);
  }

  lemma CheckpointFits(site: Site, cfg: BackupConfig, d: Disk, source: Source, order: seq<ArchiveName>,
                       migration: bool, stamp: Stamp)
    requires var dec := DecisionFor(site, cfg, d, source, order, migration); dec.Make? && !IsSmart(dec.kind)
    ensures var b := BackupFor(site, cfg, d, source, order, migration, stamp);
      && IsFullLike(b.name.KindOf()) && b.archive.files.Keys == b.current.Keys
      && Collect(source).Some? && b.current == FilterStates(Collect(source).value, site.blacklisted)
      && b.archive.files == Archived(source, Listing(b.current.Keys))
  {
    CheckpointTakesAll(site, cfg, d, source, order, migration);
    var b := BackupFor(site, cfg, d, source, order, migration, stamp);
    forall p ensures p in Listing(b.current.Keys) <==> p in b.current.Keys { ListingIn(b.current.Keys, p); }
    ArchivedKeys(source, Listing(b.current.Keys), b.current.Keys);
  }

  lemma RunsBackupIsNamed(site: Site, cfg: BackupConfig, w: World, source: Source, order: seq<ArchiveName>,
                          migration: bool, stamp: Stamp)
    requires GoodInputs(site, w, order, stamp)
    requires DecisionFor(site, cfg, w.disk, source, order, migration).Make?
    ensures var b := BackupFor(site, cfg, w.disk, source, order, migration, stamp);
      && NamedWell(site, w, b)
      && (IsSmart(b.name.kind) <==> IsSmart(DecisionFor(site, cfg, w.disk, source, order, migration).kind))
  {
  }

  lemma CurrentIsClean(site: Site, all: States, b: NewBackup)
    requires b.current == FilterStates(all, site.blacklisted)
    ensures forall p | p in b.current :: !site.blacklisted(p)
  {
  }

  lemma RunsBackupFits(site: Site, cfg: BackupConfig, w: World, source: Source, order: seq<ArchiveName>,
                       migration: bool, stamp: Stamp)
    requires Inv(site, w) && GoodInputs(site, w, order, stamp)
    requires DecisionFor(site, cfg, w.disk, source, order, migration).Make?
    ensures Fits(site, w, BackupFor(site, cfg, w.disk, source, order, migration, stamp))
  {
    var b := BackupFor(site, cfg, w.disk, source, order, migration, stamp);
    RunsBackupIsNamed(site, cfg, w, source, order, migration, stamp);
    if IsSmart(DecisionFor(site, cfg, w.disk, source, order, migration).kind) {
      SmartBackupIs(site, cfg, w.disk, source, order, migration, stamp);
      SmartOfFits(site, w, source, b);
    } else {
      CheckpointFits(site, cfg, w.disk, source, order, migration, stamp);
    }
    CurrentIsClean(site, Collect(source).value, b);
  }

  // ---- a fitting backup keeps the invariant ----

  /** The committed disk still holds the whole chain, followed by the new archive. */
  lemma OneLonger(w: World, chain: seq<ArchiveName>, b: NewBackup)
    requires ChainOk(w.disk, chain) && chain != []
    requires b.name !in w.disk.archives && b.name !in w.disk.records
    ensures var e, longer := Committed(w, b).disk, chain + [b.name];
      && Extends(w.disk, e, chain) && Present(e, longer)
      && Replay(e, longer, |chain| - 1) == Replay(w.disk, chain, |chain| - 1)
  {
    var e, longer := Committed(w, b).disk, chain + [b.name];
    assert Extends(w.disk, e, chain);
    assert Present(e, longer);
    ExtendedReplay(w.disk, e, chain, longer, |chain| - 1);
  }

  lemma SmartFitsLinks(w: World, chain: seq<ArchiveName>, b: NewBackup)
    requires ChainOk(w.disk, chain) && SmartFits(w.disk, chain, b) && IsSmart(b.name.KindOf())
    requires b.name !in w.disk.archives && b.name !in w.disk.records
    ensures var e := Committed(w, b).disk;
      && Present(e, chain + [b.name])
      && Link(e, chain + [b.name], |chain|)
      && Replay(e, chain + [b.name], |chain|) == Overlay(Replay(w.disk, chain, |chain| - 1), b.changes.deleted, b.archive.files)
      && Replay(e, chain + [b.name], |chain|).Keys == b.current.Keys
  {
    var e, longer := Committed(w, b).disk, chain + [b.name];
    OneLonger(w, chain, b);
    assert longer[|chain| - 1] == chain[|chain| - 1];
  }

  lemma CheckpointLinks(w: World, chain: seq<ArchiveName>, b: NewBackup)
    requires Present(w.disk, chain) && IsFullLike(b.name.KindOf()) && b.archive.files.Keys == b.current.Keys
    requires b.name !in w.disk.archives && b.name !in w.disk.records
    ensures var e := Committed(w, b).disk;
      && Present(e, chain + [b.name])
      && Link(e, chain + [b.name], |chain|)
      && Replay(e, chain + [b.name], |chain|) == b.archive.files
  {}

  lemma NextLinkKeepsChain(w: World, chain: seq<ArchiveName>, b: NewBackup)
    requires ChainOk(w.disk, chain) && b.name.Named? && b.name !in w.disk.archives && b.name !in w.disk.records
    requires if IsSmart(b.name.KindOf()) then SmartFits(w.disk, chain, b)
             else IsFullLike(b.name.KindOf()) && b.archive.files.Keys == b.current.Keys
    ensures var e, longer := Committed(w, b).disk, chain + [b.name];
      && ChainOk(e, longer)
      && Replay(e, longer, |longer| - 1).Keys == b.current.Keys
  {
    if IsSmart(b.name.KindOf()) { SmartFitsLinks(w, chain, b); } else { CheckpointLinks(w, chain, b); }
    assert Extends(w.disk, Committed(w, b).disk, chain);
    ExtendedChain(w.disk, Committed(w, b).disk, chain, chain + [b.name]);
  }

  lemma FittingKeepsNames(site: Site, w: World, b: NewBackup)
    requires Keyed(w.disk) && UniqueStems(InPlay(w.disk)) && Fits(site, w, b)
    ensures Keyed(Committed(w, b).disk) && UniqueStems(InPlay(Committed(w, b).disk))
  {
    assert InPlay(Committed(w, b).disk) <= InPlay(w.disk) + {b.name};
  }

  lemma FittingIsNew(site: Site, w: World, b: NewBackup, e: HistoryEntry)
    requires Inv(site, w) && Fits(site, w, b) && e in w.history
    ensures !site.scope.IsSame(e, b.entry)
  {
    NameIsFree(w.disk, b.name);
    OfWorldMembers(site, w.history, e);
    var mine := OfWorld(site, w.history);
    assert forall i | 0 <= i < |mine| :: FileNames(mine)[i] in w.disk.archives && FileNames(mine)[i] == mine[i].backupFile;
  }

  lemma AppendEntry(site: Site, h: seq<HistoryEntry>, e: HistoryEntry)
    requires HistoryOk(site, h) && site.Owns(e) && EntryOk(site, e)
    requires forall x | x in h :: !site.scope.IsSame(x, e)
    requires forall x | x in OfWorld(site, h) :: !Less(e.timestamp, x.timestamp)
    ensures HistoryOk(site, h + [e])
    ensures OfWorld(site, h + [e]) == OfWorld(site, h) + [e]
  {
    var longer := h + [e];
    assert longer[..|longer| - 1] == h;
    assert OfWorld(site, longer) == OfWorld(site, h) + [e];
  }

  lemma NamesAppend(entries: seq<HistoryEntry>, e: HistoryEntry)
    ensures FileNames(entries + [e]) == FileNames(entries) + [e.backupFile]
  {
  }

  lemma FittingKeepsHistory(site: Site, w: World, b: NewBackup)
    requires Inv(site, w) && Fits(site, w, b)
    ensures HistoryOk(site, w.history + [b.entry])
    ensures FileNames(OfWorld(site, w.history + [b.entry])) == ChainOf(site, w) + [b.name]
  {
    forall e | e in w.history ensures !site.scope.IsSame(e, b.entry) { FittingIsNew(site, w, b, e); }
    AppendEntry(site, w.history, b.entry);
    NamesAppend(OfWorld(site, w.history), b.entry);
  }

  lemma FittingKeepsState(site: Site, w: World, chain: seq<ArchiveName>, b: NewBackup)
    requires ChainOk(w.disk, chain) && b.name.Named? && b.name !in w.disk.archives && b.name !in w.disk.records
    requires if IsSmart(b.name.KindOf()) then SmartFits(w.disk, chain, b)
             else IsFullLike(b.name.KindOf()) && b.archive.files.Keys == b.current.Keys
    requires forall p | p in b.current :: !site.blacklisted(p)
    ensures ChainOk(Committed(w, b).disk, chain + [b.name]) && StateOk(site, Committed(w, b).disk, chain + [b.name])
  {
    NextLinkKeepsChain(w, chain, b);
  }

  /** A created backup keeps the invariant and becomes the newest link of the chain. */
  lemma FittingKeepsInv(site: Site, w: World, b: NewBackup)
    requires Inv(site, w) && Fits(site, w, b)
    ensures Inv(site, Committed(w, b))
    ensures ChainOf(site, Committed(w, b)) == ChainOf(site, w) + [b.name]
  {
    NameIsFree(w.disk, b.name);
    FittingKeepsState(site, w, ChainOf(site, w), b);
    FittingKeepsHistory(site, w, b);
    FittingKeepsNames(site, w, b);
  }

  // ---- what a created backup restores to ----

  /** The scan can trust sizes and times: a file whose stamp is unchanged since the newest archive
      still has the content that archive restores. */
  ghost predicate HonestStamps(site: Site, w: World, source: Source)
  {
    var chain := ChainOf(site, w);
    chain != [] && Present(w.disk, chain) && w.disk.state.Some? ==>
      var kept := Replay(w.disk, chain, |chain| - 1);
      forall p | p in source && p in kept && p in w.disk.state.value.files
                 && !Touched(w.disk.state.value.files[p], source[p].state) :: kept[p] == source[p].content
  }

  function Contents(site: Site, source: Source): Files
  {
    map p | p in source && !site.blacklisted(p) :: source[p].content
  }

  /** Replacing what the difference lists, and dropping what it deletes, turns the old files into
      the new ones, given that everything it leaves alone is unchanged. */
  lemma PatchCaptures(site: Site, saved: States, kept: Files, source: Source, b: NewBackup)
    requires Collect(source).Some? && b.current == FilterStates(Collect(source).value, site.blacklisted)
    requires kept.Keys == saved.Keys && b.changes == Diff(saved, b.current)
    requires b.archive.files.Keys == Elems(b.changes.added) + Elems(b.changes.modified)
    requires forall p | p in b.archive.files :: p in source && b.archive.files[p] == source[p].content
    requires forall p | p in source && p in kept && !Touched(saved[p], source[p].state) :: kept[p] == source[p].content
    ensures Overlay(kept, b.changes.deleted, b.archive.files) == Contents(site, source)
  {
    var now, wanted := Overlay(kept, b.changes.deleted, b.archive.files), Contents(site, source);
    forall p ensures Lookup(now, p) == Lookup(wanted, p) {
      PatchCapturesAt(site, saved, kept, source, b, p);
    }
    SameLookups(now, wanted);
  }

  lemma PatchCapturesAt(site: Site, saved: States, kept: Files, source: Source, b: NewBackup, p: Path)
    requires Collect(source).Some? && b.current == FilterStates(Collect(source).value, site.blacklisted)
    requires kept.Keys == saved.Keys && b.changes == Diff(saved, b.current)
    requires p in b.archive.files <==> p in AddedPaths(saved, b.current) || p in ModifiedPaths(saved, b.current)
    requires p in b.archive.files ==> p in source && b.archive.files[p] == source[p].content
    requires p in source && p in kept && !Touched(saved[p], source[p].state) ==> kept[p] == source[p].content
    ensures Lookup(Overlay(kept, b.changes.deleted, b.archive.files), p) == Lookup(Contents(site, source), p)
  {
    assert p in Elems(b.changes.deleted) <==> p in AddedPaths(b.current, saved);
    assert p in kept <==> p in saved.Keys;
    assert p in b.current <==> p in source && !site.blacklisted(p);
  }

  lemma HonestKeeps(site: Site, w: World, source: Source)
    requires HonestStamps(site, w, source)
    requires ChainOf(site, w) != [] && Present(w.disk, ChainOf(site, w)) && w.disk.state.Some?
    ensures var saved, kept := w.disk.state.value.files, Replay(w.disk, ChainOf(site, w), |ChainOf(site, w)| - 1);
            saved.Keys == kept.Keys ==>
              forall p | p in source && p in kept && !Touched(saved[p], source[p].state) :: kept[p] == source[p].content
  {
  }

  lemma SmartOfParts(site: Site, d: Disk, source: Source, b: NewBackup)
    requires SmartOf(site, d, source, b)
    ensures d.state.Some? && d.state.value.last in d.archives && Collect(source).Some?
    ensures var saved, all := d.state.value.files, Collect(source).value;
      && b.current == FilterStates(all, site.blacklisted)
      && b.changes == FilterChanges(Diff(saved, all), site.blacklisted)
      && b.archive.files == Archived(source, Kept(Candidates(saved, all), Allowed(site.blacklisted)))
  {}

  lemma SavedIsReplayed(site: Site, w: World)
    requires Inv(site, w) && w.disk.state.Some? && w.disk.state.value.last in w.disk.archives
    ensures ChainOf(site, w) != [] && Present(w.disk, ChainOf(site, w))
    ensures Replay(w.disk, ChainOf(site, w), |ChainOf(site, w)| - 1).Keys == w.disk.state.value.files.Keys
  {}

  lemma SmartCaptures(site: Site, w: World, source: Source, b: NewBackup)
    requires Inv(site, w) && SmartOf(site, w.disk, source, b) && HonestStamps(site, w, source)
    ensures SmartFits(w.disk, ChainOf(site, w), b)
    ensures var chain := ChainOf(site, w);
      Overlay(Replay(w.disk, chain, |chain| - 1), b.changes.deleted, b.archive.files) == Contents(site, source)
  {
    SmartOfFits(site, w, source, b);
    SmartOfParts(site, w.disk, source, b);
    SavedIsReplayed(site, w);
    HonestKeeps(site, w, source);
    var chain := ChainOf(site, w);
    SmartCapturesOver(site, w.disk.state.value.files, Replay(w.disk, chain, |chain| - 1), source, b);
  }

  lemma SmartCapturesOver(site: Site, saved: States, kept: Files, source: Source, b: NewBackup)
    requires Collect(source).Some? && kept.Keys == saved.Keys && forall p | p in saved :: !site.blacklisted(p)
    requires b.current == FilterStates(Collect(source).value, site.blacklisted)
    requires b.changes == FilterChanges(Diff(saved, Collect(source).value), site.blacklisted)
    requires b.archive.files == Archived(source, Kept(Candidates(saved, Collect(source).value), Allowed(site.blacklisted)))
    requires b.archive.files.Keys == Elems(b.changes.added) + Elems(b.changes.modified)
    requires forall p | p in source && p in kept && !Touched(saved[p], source[p].state) :: kept[p] == source[p].content
    ensures Overlay(kept, b.changes.deleted, b.archive.files) == Contents(site, source)
  {
    SmartPatch(site, saved, Collect(source).value, source, b);
    PatchCaptures(site, saved, kept, source, b);
  }

  /** A Smart archive holds the source's content of exactly the paths the filtered difference lists. */
  lemma SmartPatch(site: Site, saved: States, all: States, source: Source, b: NewBackup)
    requires forall p | p in saved :: !site.blacklisted(p)
    requires all.Keys == source.Keys
    requires b.current == FilterStates(all, site.blacklisted)
    requires b.changes == FilterChanges(Diff(saved, all), site.blacklisted)
    requires b.archive.files == Archived(source, Kept(Candidates(saved, all), Allowed(site.blacklisted)))
    ensures b.changes == Diff(saved, b.current)
    ensures forall p | p in b.archive.files :: p in source && b.archive.files[p] == source[p].content
  {
    SmartFiles(site, saved, all);
  }

  /** The newest archive restores to the source as it was backed up, minus blacklisted files. */
  lemma CreatedRestoresSource(site: Site, cfg: BackupConfig, w: World, source: Source, order: seq<ArchiveName>,
                              migration: bool, stamp: Stamp)
    requires Inv(site, w) && GoodInputs(site, w, order, stamp) && HonestStamps(site, w, source)
    requires DecisionFor(site, cfg, w.disk, source, order, migration).Make?
    ensures var x := Committed(w, BackupFor(site, cfg, w.disk, source, order, migration, stamp));
      && Inv(site, x) && |ChainOf(site, x)| == |ChainOf(site, w)| + 1
      && Replay(x.disk, ChainOf(site, x), |ChainOf(site, w)|) == Contents(site, source)
  {
    var b := BackupFor(site, cfg, w.disk, source, order, migration, stamp);
    var chain := ChainOf(site, w);
    RunsBackupFits(site, cfg, w, source, order, migration, stamp);
    FittingKeepsInv(site, w, b);
    NameIsFree(w.disk, b.name);
    if IsSmart(b.name.KindOf()) {
      SmartBackupIs(site, cfg, w.disk, source, order, migration, stamp);
      SmartCaptures(site, w, source, b);
      SmartFitsLinks(w, chain, b);
    } else {
      CheckpointFits(site, cfg, w.disk, source, order, migration, stamp);
      CheckpointLinks(w, chain, b);
      CheckpointCaptures(site, source, b);
    }
  }

  lemma CheckpointCaptures(site: Site, source: Source, b: NewBackup)
    requires Collect(source).Some? && b.current == FilterStates(Collect(source).value, site.blacklisted)
    requires b.archive.files == Archived(source, Listing(b.current.Keys))
    ensures b.archive.files == Contents(site, source)
  {
    forall p ensures p in Listing(b.current.Keys) <==> p in source && !site.blacklisted(p) {
      ListingIn(b.current.Keys, p);
    }
  }

  // ---- steps that leave the chain as it was ----

  /** Sound links and a sound state depend only on the archives and records of the chain. */
  lemma SameChain(site: Site, d: Disk, e: Disk, chain: seq<ArchiveName>)
    requires Extends(d, e, chain) && ChainOk(d, chain) && StateOk(site, d, chain)
    requires e.state == d.state
    requires e.state.Some? && e.state.value.last in e.archives ==> e.state.value.last in d.archives
    ensures ChainOk(e, chain) && StateOk(site, e, chain)
  {
    ExtendedChain(d, e, chain, chain);
    if chain != [] { ExtendedReplay(d, e, chain, chain, |chain| - 1); }
  }

  /** File times play no part in the invariant. */
  lemma AlikeKeepsInv(site: Site, w: World, x: World)
    requires Inv(site, w) && Alike(x.disk, w.disk) && x.history == w.history
    ensures Inv(site, x)
  {
    var chain := ChainOf(site, w);
    assert Extends(w.disk, x.disk, chain);
    SameChain(site, w.disk, x.disk, chain);
    assert InPlay(x.disk) == InPlay(w.disk);
  }

  lemma OrphanKeepsNames(d: Disk, b: NewBackup, e: Disk)
    requires Keyed(d) && UniqueStems(InPlay(d)) && b.name.Named? && FreshStem(d, b.name.stem)
    requires e.archives == d.archives || e.archives == d.archives[b.name := b.archive]
    requires e.records == d.records || e.records == d.records[b.name := RecordOf(b)]
    requires e.state == d.state
    ensures Keyed(e) && UniqueStems(InPlay(e))
  {
    assert InPlay(e) <= InPlay(d) + {b.name};
  }

  /** An archive or record that a failed backup leaves behind disturbs nothing. */
  lemma OrphanKeepsInv(site: Site, w: World, b: NewBackup, x: World)
    requires Inv(site, w) && b.name.Named? && FreshStem(w.disk, b.name.stem)
    requires Uncommitted(w, b, false, x)
    ensures Inv(site, x) && ChainOf(site, x) == ChainOf(site, w)
  {
    var chain := ChainOf(site, w);
    OrphanKeepsNames(w.disk, b, x.disk);
    OrphanExtends(w.disk, chain, b, x.disk);
    SameChain(site, w.disk, x.disk, chain);
  }

  lemma OrphanExtends(d: Disk, chain: seq<ArchiveName>, b: NewBackup, e: Disk)
    requires Present(d, chain) && b.name.Named? && FreshStem(d, b.name.stem)
    requires e.archives == d.archives || e.archives == d.archives[b.name := b.archive]
    requires e.records == d.records || e.records == d.records[b.name := RecordOf(b)]
    requires e.state == d.state
    ensures Extends(d, e, chain)
    ensures e.state.Some? && e.state.value.last in e.archives ==> e.state.value.last in d.archives
  {
    NameIsFree(d, b.name);
    assert e.state.Some? ==> e.state.value.last in InPlay(d);
  }

  /** A failed backup keeps the invariant unless record and state were saved, the history was refused
      and the old state could not be put back: then the state names an archive the history lacks. */
  lemma FailedBackupKeepsInv(site: Site, w: World, b: NewBackup, f: CommitFaults, outcome: CommitOutcome, x: World)
    requires Inv(site, w) && b.name.Named? && FreshStem(w.disk, b.name.stem)
    requires Delivered(w, b, f, outcome, x) && outcome != Created
    ensures Inv(site, x) <==> !f.LeavesState()
  {
    if f.LeavesState() {
      NameIsFree(w.disk, b.name);
      assert Present(w.disk, ChainOf(site, w));
    } else {
      OrphanKeepsInv(site, w, b, x);
    }
  }

  // ---- runs ----

  /** One run of the backup service, whatever fails in it, short of a rollback that leaves the new
      state in place. */
  ghost predicate BackupStep(site: Site, w: World, x: World, cfg: BackupConfig, source: Source,
                             order: seq<ArchiveName>, migration: bool, stamp: Stamp, f: CommitFaults, r: RunOutcome)
  {
    && GoodInputs(site, w, order, stamp)
    && RunEffect(site, cfg, w, source, order, migration, stamp, f, r, x)
    && (r.Done? ==> !f.LeavesState())
  }

  /** One removal that either has its full effect or was put back. */
  ghost predicate RemoveStep(site: Site, w: World, x: World, entry: HistoryEntry, now: string, carried: bool)
  {
    || (Inv(site, w) && FullyRemoved(site, w, entry, now, carried, x))
    || (Alike(x.disk, w.disk) && x.history == w.history)
  }

  /** A removal that leaves no recovery directory behind is a step of a run, whatever copy of the
      entry was asked to be removed. */
  lemma RemoveOutcomeIsStep(site: Site, w: World, x: World, entry: HistoryEntry, now: string, f: RemoveFaults,
                            r: RemoveResult)
    requires Inv(site, w) && AllOrNothing(site, w, entry, now, f, r, x) && r.recovery.None?
    ensures exists e :: RemoveStep(site, w, x, e, now, f.merge.carryTime)
  {
    if r.changed {
      RemovedIsFull(site, w, entry, now, f.merge.carryTime, x);
      var e :| e in w.history && FullyRemoved(site, w, e, now, f.merge.carryTime, x);
      assert RemoveStep(site, w, x, e, now, f.merge.carryTime);
    } else {
      assert RemoveStep(site, w, x, entry, now, f.merge.carryTime);
    }
  }

  ghost predicate Next(site: Site, w: World, x: World)
  {
    || (exists cfg, source, order, migration, stamp, f, r ::
          BackupStep(site, w, x, cfg, source, order, migration, stamp, f, r))
    || (exists entry, now, carried :: RemoveStep(site, w, x, entry, now, carried))
  }

  ghost predicate Start(site: Site, w: World)
  {
    w.disk == Disk(map[], map[], None) && UniqueIdentities(site.scope, w.history) && OfWorld(site, w.history) == []
  }

  ghost predicate Run(site: Site, ws: seq<World>)
  {
    && ws != [] && Start(site, ws[0])
    && forall i | 0 <= i < |ws| - 1 :: Next(site, ws[i], ws[i + 1])
  }

  lemma BackupStepKeepsInv(site: Site, w: World, x: World, cfg: BackupConfig, source: Source,
                           order: seq<ArchiveName>, migration: bool, stamp: Stamp, f: CommitFaults, r: RunOutcome)
    requires Inv(site, w) && BackupStep(site, w, x, cfg, source, order, migration, stamp, f, r)
    ensures Inv(site, x)
  {
    if r.Done? {
      var b := BackupFor(site, cfg, w.disk, source, order, migration, stamp);
      RunsBackupFits(site, cfg, w, source, order, migration, stamp);
      if r.commit == Created {
        FittingKeepsInv(site, w, b);
      } else {
        OrphanKeepsInv(site, w, b, x);
      }
    }
  }

  /** The t-th archive was removed from before a Smart one that reads full-like. */
  ghost predicate MisledAt(site: Site, w: World, x: World, t: nat, now: string)
  {
    && Inv(site, w) && Removable(site, w, t) && Misleads(ChainOf(site, w), t)
    && Alike(x.disk, AfterRemove(site, w, t, now).disk) && x.history == AfterRemove(site, w, t, now).history
  }

  ghost predicate Misled(site: Site, w: World, x: World)
  {
    exists t: nat, now :: MisledAt(site, w, x, t, now)
  }

  lemma MisledBreaksInv(site: Site, w: World, x: World)
    requires Misled(site, w, x)
    ensures !Inv(site, x)
  {
    var t: nat, now :| MisledAt(site, w, x, t, now);
    RemoveKeepsInv(site, w, t, now);
    if Inv(site, x) {
      AlikeKeepsInv(site, x, AfterRemove(site, w, t, now));
      assert false;
    }
  }

  lemma RemoveStepKeepsInv(site: Site, w: World, x: World, entry: HistoryEntry, now: string, carried: bool)
    requires Inv(site, w) && RemoveStep(site, w, x, entry, now, carried) && !Misled(site, w, x)
    ensures Inv(site, x)
  {
    if FullyRemoved(site, w, entry, now, carried, x) {
      var t: nat :| t < |OfWorld(site, w.history)| && Removable(site, w, t)
        && Alike(x.disk, AfterRemove(site, w, t, now).disk) && x.history == AfterRemove(site, w, t, now).history;
      assert Misleads(ChainOf(site, w), t) ==> MisledAt(site, w, x, t, now);
      RemoveKeepsInv(site, w, t, now);
      AlikeKeepsInv(site, AfterRemove(site, w, t, now), x);
    } else {
      AlikeKeepsInv(site, w, x);
    }
  }

  /** A step keeps the invariant exactly when it is not such a removal. */
  lemma NextKeepsInv(site: Site, w: World, x: World)
    requires Inv(site, w) && Next(site, w, x)
    ensures Inv(site, x) <==> !Misled(site, w, x)
  {
    if Misled(site, w, x) {
      MisledBreaksInv(site, w, x);
    } else if cfg, source, order, migration, stamp, f, r :|
      BackupStep(site, w, x, cfg, source, order, migration, stamp, f, r)
    {
      BackupStepKeepsInv(site, w, x, cfg, source, order, migration, stamp, f, r);
    } else {
      var entry, now, carried :| RemoveStep(site, w, x, entry, now, carried);
      RemoveStepKeepsInv(site, w, x, entry, now, carried);
    }
  }

  /** No removal of the run is misled. */
  ghost predicate Steady(site: Site, ws: seq<World>)
  {
    forall i | 0 <= i < |ws| - 1 :: !Misled(site, ws[i], ws[i + 1])
  }

  lemma {:induction false} SteadyRunsKeepInv(site: Site, ws: seq<World>, i: nat)
    requires Run(site, ws) && Steady(site, ws) && i < |ws|
    ensures Inv(site, ws[i])
  {
    if i > 0 {
      SteadyRunsKeepInv(site, ws, i - 1);
      assert Next(site, ws[i - 1], ws[i - 1 + 1]) && !Misled(site, ws[i - 1], ws[i - 1 + 1]);
      NextKeepsInv(site, ws[i - 1], ws[i]);
    }
  }

  /** The invariant holds in every state of a run if and only if no removal of the run was misled. */
  lemma RunsKeepInv(site: Site, ws: seq<World>)
    requires Run(site, ws)
    ensures (forall i | 0 <= i < |ws| :: Inv(site, ws[i])) <==> Steady(site, ws)
  {
    if Steady(site, ws) {
      forall i | 0 <= i < |ws| ensures Inv(site, ws[i]) { SteadyRunsKeepInv(site, ws, i); }
    } else {
      var i :| 0 <= i < |ws| - 1 && Misled(site, ws[i], ws[i + 1]);
      MisledBreaksInv(site, ws[i], ws[i + 1]);
    }
  }

  // ---- runs with plain comments ----

  /** Neither the world's name nor the comment spells a full-like type. */
  ghost predicate PlainStamp(site: Site, stamp: Stamp)
  {
    PartsOk(stamp.parts) && Harmless(Smart, site.worldName, stamp.comment)
  }

  /** Before a generated Smart archive, a removal is misled exactly when that archive's comment is
      Full or Overwrite or its folder holds such a marker. */
  lemma CommentDecides(chain: seq<ArchiveName>, t: nat, folder: string, comment: string, parts: NameParts)
    requires t + 1 < |chain| && PartsOk(parts) && chain[t + 1] == GeneratedName(Smart, folder, comment, parts)
    ensures Misleads(chain, t) <==> !Harmless(Smart, folder, comment)
    ensures MergesNext(chain, t) <==> Harmless(Smart, folder, comment)
  {
    GeneratedReads(Smart, folder, comment, parts);
  }

  ghost predicate PlainNext(site: Site, w: World, x: World)
  {
    || (exists cfg, source, order, migration, stamp, f, r ::
          BackupStep(site, w, x, cfg, source, order, migration, stamp, f, r) && PlainStamp(site, stamp))
    || (exists entry, now, carried :: RemoveStep(site, w, x, entry, now, carried))
  }

  ghost predicate PlainRun(site: Site, ws: seq<World>)
  {
    && ws != [] && Start(site, ws[0])
    && forall i | 0 <= i < |ws| - 1 :: PlainNext(site, ws[i], ws[i + 1])
  }

  /** No Smart archive reads full-like. */
  ghost predicate PlainNames(chain: seq<ArchiveName>)
  {
    forall i | 0 <= i < |chain| :: IsSmart(chain[i].KindOf()) ==> !ReadsFullLike(chain[i])
  }

  lemma PlainIsNotMisled(site: Site, w: World, x: World)
    requires PlainNames(ChainOf(site, w))
    ensures !Misled(site, w, x)
  {}

  lemma PlainBackup(site: Site, w: World, x: World, cfg: BackupConfig, source: Source, order: seq<ArchiveName>,
                    migration: bool, stamp: Stamp, f: CommitFaults, r: RunOutcome)
    requires Inv(site, w) && PlainNames(ChainOf(site, w)) && PlainStamp(site, stamp)
    requires BackupStep(site, w, x, cfg, source, order, migration, stamp, f, r)
    ensures PlainNames(ChainOf(site, x))
  {
    if r == Done(Created) {
      PlainCreated(site, cfg, w, source, order, migration, stamp);
    } else {
      assert x.history == w.history;
    }
  }

  lemma PlainCreated(site: Site, cfg: BackupConfig, w: World, source: Source, order: seq<ArchiveName>,
                     migration: bool, stamp: Stamp)
    requires Inv(site, w) && PlainNames(ChainOf(site, w)) && PlainStamp(site, stamp) && GoodInputs(site, w, order, stamp)
    requires DecisionFor(site, cfg, w.disk, source, order, migration).Make?
    ensures PlainNames(ChainOf(site, Committed(w, BackupFor(site, cfg, w.disk, source, order, migration, stamp))))
  {
    var b := BackupFor(site, cfg, w.disk, source, order, migration, stamp);
    RunsBackupFits(site, cfg, w, source, order, migration, stamp);
    FittingKeepsInv(site, w, b);
    PlainName(site, b.name.KindOf(), stamp);
  }

  lemma PlainName(site: Site, kind: Kind, stamp: Stamp)
    requires PlainStamp(site, stamp)
    ensures IsSmart(kind) ==> !ReadsFullLike(Named(kind, StampStem(site, stamp)))
  {
    GeneratedReads(kind, site.worldName, stamp.comment, stamp.parts);
  }

  lemma PlainRemoval(site: Site, w: World, x: World, entry: HistoryEntry, now: string, carried: bool)
    requires Inv(site, w) && PlainNames(ChainOf(site, w)) && RemoveStep(site, w, x, entry, now, carried)
    ensures PlainNames(ChainOf(site, x))
  {
    if FullyRemoved(site, w, entry, now, carried, x) {
      var t: nat :| t < |OfWorld(site, w.history)| && Removable(site, w, t)
        && Alike(x.disk, AfterRemove(site, w, t, now).disk) && x.history == AfterRemove(site, w, t, now).history;
      RemoveKeepsInv(site, w, t, now);
      PlainRest(ChainOf(site, w), t);
    }
  }

  lemma PlainRest(chain: seq<ArchiveName>, t: nat)
    requires PlainNames(chain) && t < |chain|
    ensures PlainNames(DroppedChain(chain, t)) && (MergesNext(chain, t) ==> PlainNames(MergedChain(chain, t)))
  {
  }

  lemma {:induction false} PlainRunsStayPlain(site: Site, ws: seq<World>, i: nat)
    requires PlainRun(site, ws) && i < |ws|
    ensures Inv(site, ws[i]) && PlainNames(ChainOf(site, ws[i]))
  {
    if i > 0 {
      PlainRunsStayPlain(site, ws, i - 1);
      assert PlainNext(site, ws[i - 1], ws[i - 1 + 1]);
      var w, x := ws[i - 1], ws[i];
      PlainIsNotMisled(site, w, x);
      NextKeepsInv(site, w, x);
      if cfg, source, order, migration, stamp, f, r :|
        BackupStep(site, w, x, cfg, source, order, migration, stamp, f, r) && PlainStamp(site, stamp)
      {
        PlainBackup(site, w, x, cfg, source, order, migration, stamp, f, r);
      } else {
        var entry, now, carried :| RemoveStep(site, w, x, entry, now, carried);
        PlainRemoval(site, w, x, entry, now, carried);
      }
    }
  }

  /** When no comment is the word Full or Overwrite, and the world's name holds no such marker, a run
      has no misled removal, so everything proved of steady runs holds of it. */
  lemma PlainRunsAreSteady(site: Site, ws: seq<World>)
    requires PlainRun(site, ws)
    ensures Run(site, ws) && Steady(site, ws)
  {
    forall i | 0 <= i < |ws| - 1 ensures Next(site, ws[i], ws[i + 1]) && !Misled(site, ws[i], ws[i + 1]) {
      assert PlainNext(site, ws[i], ws[i + 1]);
      PlainRunsStayPlain(site, ws, i);
      PlainIsNotMisled(site, ws[i], ws[i + 1]);
    }
  }

  // ---- restores along a run ----

  /** What a managed restore of any archive of the chain does in any state of a steady run. */
  lemma RunsRestore(site: Site, ws: seq<World>, i: nat, k: nat)
    requires Run(site, ws) && Steady(site, ws) && i < |ws| && k < |ChainOf(site, ws[i])|
    ensures var d, chain := ws[i].disk, ChainOf(site, ws[i]);
      && Present(d, chain) && d.records[chain[k]].basedOn in d.records
      && ManagedRestore(d, chain[k]) ==
           if ReadsSmart(chain[k]) && d.records[d.records[chain[k]].basedOn].fullList == [] then Err(PlanInvalid)
           else Ok(Replay(d, chain, k))
  {
    SteadyRunsKeepInv(site, ws, i);
    RestoreByBase(ws[i].disk, ChainOf(site, ws[i]), k);
  }

  lemma StateWalks(site: Site, d: Disk, chain: seq<ArchiveName>)
    requires ChainOk(d, chain) && StateOk(site, d, chain) && d.state.Some? && d.state.value.last in d.archives
    ensures var s := d.state.value;
      && chain != [] && s.last == chain[|chain| - 1] && Present(d, chain)
      && MetadataChain(d, s.last, {}).Ok?
      && var walk := MetadataChain(d, s.last, {}).value;
         && walk != [] && walk[|walk| - 1] == s.last && IsFullLike(walk[0].KindOf()) && s.basedOn == walk[0]
         && (forall n | n in walk :: n in d.archives && n in d.records)
         && s.files.Keys == Replay(d, chain, |chain| - 1).Keys
         && ManagedRestore(d, s.last) == (if ReadsSmart(s.last) && d.records[walk[0]].fullList == [] then Err(PlanInvalid)
                                          else Ok(Replay(d, chain, |chain| - 1)))
  {
    WalkIsSound(d, chain, |chain| - 1);
    RestoreByBase(d, chain, |chain| - 1);
  }

  /** In every state of every steady run: if the archive the saved state names is there, it is the
      newest of the chain, its links lead to a checkpoint with nothing missing on the way, its base is
      that checkpoint, and it restores to files whose paths are those of the saved state, unless it
      reads Smart and its base lists no file, which the planner refuses. If it is gone, whatever is
      backed up next is a checkpoint. */
  lemma RunsStayRestorable(site: Site, ws: seq<World>, i: nat, cfg: BackupConfig, source: Source,
                           order: seq<ArchiveName>, migration: bool)
    requires Run(site, ws) && Steady(site, ws) && i < |ws| && ws[i].disk.state.Some?
    ensures var d, s, chain := ws[i].disk, ws[i].disk.state.value, ChainOf(site, ws[i]);
      if s.last in d.archives then
        && chain != [] && s.last == chain[|chain| - 1] && Present(d, chain)
        && MetadataChain(d, s.last, {}).Ok?
        && var walk := MetadataChain(d, s.last, {}).value;
           && walk != [] && walk[|walk| - 1] == s.last && IsFullLike(walk[0].KindOf()) && s.basedOn == walk[0]
           && (forall n | n in walk :: n in d.archives && n in d.records)
           && s.files.Keys == Replay(d, chain, |chain| - 1).Keys
           && ManagedRestore(d, s.last) == (if ReadsSmart(s.last) && d.records[walk[0]].fullList == [] then Err(PlanInvalid)
                                            else Ok(Replay(d, chain, |chain| - 1)))
      else
        var dec := DecisionFor(site, cfg, d, source, order, migration);
        dec.Make? ==> IsFullLike(dec.kind)
  {
    SteadyRunsKeepInv(site, ws, i);
    var w := ws[i];
    if w.disk.state.value.last in w.disk.archives {
      StateWalks(site, w.disk, ChainOf(site, w));
    } else {
      GoneTailForcesCheckpoint(site, cfg, w.disk, source, order, migration);
    }
  }
}
