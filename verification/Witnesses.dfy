/** Runs that reach the states in which a restore or a removal is lost, or the limit is exceeded. */
module Witnesses {
  import opened Names
  import opened Ordering
  import opened Delta
  import opened Chain
  import opened Format
  import opened Repair
  import opened History
  import opened Removal
  import opened Survival
  import opened Scan
  import opened Vault
  import opened Backup
  import opened Backups
  import opened Runs
  import opened Limit

  // ---- one world and its backups ----

  const SITE := Site(Scope("c", (path: string, name: string) => path), "/w", "W", (p: Path) => false)

  const FRESH_START := World(Disk(map[], map[], None), [])

  function SmartMode(limit: int): BackupConfig { BackupConfig(2, false, limit) }

  const OVERWRITE_MODE := BackupConfig(3, false, 0)

  /** A world of one file, whose size tells its versions apart. */
  function OneFile(size: FileSize): Source
  {
    map["w" := SourceFile("x", FileState(size, "t", ""))]
  }

  /** The n-th stamp; the clock of the name starts with n. */
  function StampAt(n: nat, comment: string): Stamp
    requires n < 10
  {
    Stamp(NameParts([('0' as int + n) as char], "g", "7z"), n, "", "t", comment)
  }

  function NameAt(n: nat, kind: Kind, comment: string): ArchiveName
    requires n < 10
  {
    Named(kind, StampStem(SITE, StampAt(n, comment)))
  }

  ghost function DecisionAt(w: World, cfg: BackupConfig, source: Source): Decision
  {
    DecisionFor(SITE, cfg, w.disk, source, ChainOf(SITE, w), false)
  }

  ghost function BackupAt(w: World, cfg: BackupConfig, source: Source, stamp: Stamp): NewBackup
    requires DecisionAt(w, cfg, source).Make?
  {
    BackupFor(SITE, cfg, w.disk, source, ChainOf(SITE, w), false, stamp)
  }

  /** The world after a backup in which nothing fails. */
  ghost function Backed(w: World, cfg: BackupConfig, source: Source, stamp: Stamp): World
  {
    if DecisionAt(w, cfg, source).Make? then Committed(w, BackupAt(w, cfg, source, stamp)) else w
  }

  /** Nothing but the chain is on disk. */
  ghost predicate Settled(w: World)
  {
    && Inv(SITE, w) && Tidy(w.disk, ChainOf(SITE, w))
    && InPlay(w.disk) <= Elems(ChainOf(SITE, w))
    && forall e | e in OfWorld(SITE, w.history) :: e.timestamp == ""
  }

  ghost predicate GoodStamp(w: World, stamp: Stamp)
  {
    && stamp.timestamp == "" && FreshStem(w.disk, StampStem(SITE, stamp))
    && forall n | n in w.disk.archives :: w.disk.archives[n].time < stamp.time
  }

  lemma FreshStartSettled()
    ensures Settled(FRESH_START) && Run(SITE, [FRESH_START]) && ChainOf(SITE, FRESH_START) == []
  {
    assert OfWorld(SITE, []) == [];
    assert Elems<ArchiveName>([]) == {};
  }

  lemma SettledIsGood(w: World, stamp: Stamp)
    requires Settled(w) && GoodStamp(w, stamp)
    ensures GoodInputs(SITE, w, ChainOf(SITE, w), stamp)
  {
    var chain := ChainOf(SITE, w);
    assert forall i | 0 <= i < |chain| :: chain[i] in Elems(chain);
  }

  /** What the backup of one step is. */
  lemma BackupIs(w: World, cfg: BackupConfig, source: Source, stamp: Stamp)
    requires Settled(w) && GoodStamp(w, stamp) && DecisionAt(w, cfg, source).Make?
    ensures var b := BackupAt(w, cfg, source, stamp);
      && Fits(SITE, w, b) && b.entry.timestamp == "" && !b.entry.isImportant && b.archive.time == stamp.time
      && RecordOf(b).basedOn in w.disk.archives.Keys + {b.name}
      && b.name == Named(DecisionAt(w, cfg, source).kind, StampStem(SITE, stamp))
  {
    SettledIsGood(w, stamp);
    RunsBackupFits(SITE, cfg, w, source, ChainOf(SITE, w), false, stamp);
    BaseExists(SITE, cfg, w.disk, source, ChainOf(SITE, w), false, stamp);
  }

  lemma FittingSettles(w: World, b: NewBackup)
    requires Settled(w) && Fits(SITE, w, b) && b.entry.timestamp == ""
    requires RecordOf(b).basedOn in w.disk.archives.Keys + {b.name}
    requires forall n | n in w.disk.archives :: w.disk.archives[n].time < b.archive.time
    ensures Settled(Committed(w, b)) && ChainOf(SITE, Committed(w, b)) == ChainOf(SITE, w) + [b.name]
  {
    FittingKeepsInv(SITE, w, b);
    NameIsFree(w.disk, b.name);
    AppendTidy(w, ChainOf(SITE, w), b);
    CommittedInPlay(w, ChainOf(SITE, w), b);
    CommittedTimes(w, b);
  }

  lemma {:induction false} CommittedInPlay(w: World, chain: seq<ArchiveName>, b: NewBackup)
    requires InPlay(w.disk) <= Elems(chain) && RecordOf(b).basedOn in w.disk.archives.Keys + {b.name}
    ensures InPlay(Committed(w, b).disk) <= Elems(chain + [b.name])
  {
    assert Elems(chain + [b.name]) == Elems(chain) + {b.name};
    assert w.disk.archives.Keys <= InPlay(w.disk);
    assert InPlay(Committed(w, b).disk) <= InPlay(w.disk) + {b.name, RecordOf(b).basedOn};
  }

  lemma CommittedTimes(w: World, b: NewBackup)
    requires SITE.Owns(b.entry) && b.entry.timestamp == ""
    requires forall e | e in OfWorld(SITE, w.history) :: e.timestamp == ""
    ensures OfWorld(SITE, w.history + [b.entry]) == OfWorld(SITE, w.history) + [b.entry]
    ensures forall e | e in OfWorld(SITE, Committed(w, b).history) :: e.timestamp == ""
  {
    var longer := w.history + [b.entry];
    assert longer[..|longer| - 1] == w.history;
  }

  lemma BackedIsNext(w: World, cfg: BackupConfig, source: Source, stamp: Stamp)
    requires Settled(w) && GoodStamp(w, stamp) && DecisionAt(w, cfg, source).Make?
    ensures Next(SITE, w, Backed(w, cfg, source, stamp))
    ensures CreatesNext(SITE, w, Backed(w, cfg, source, stamp), cfg, source, ChainOf(SITE, w), false, stamp)
  {
    var b, x, chain := BackupAt(w, cfg, source, stamp), Backed(w, cfg, source, stamp), ChainOf(SITE, w);
    SettledIsGood(w, stamp);
    BaseExists(SITE, cfg, w.disk, source, chain, false, stamp);
    WithinNamesNothingAbsent(w, b, x);
    var f := CommitFaults(true, true, true, true, true, true, true, true, true, true, true);
    assert Delivered(w, b, f, Created, x);
    assert BackupStep(SITE, w, x, cfg, source, chain, false, stamp, f, Done(Created));
  }

  // ---- runs of backups ----

  datatype Step = Step(cfg: BackupConfig, source: Source, comment: string)

  ghost function WorldAfter(steps: seq<Step>): World
    requires |steps| < 10
  {
    if steps == [] then FRESH_START
    else
      var n := |steps|;
      var last := steps[n - 1];
      Backed(WorldAfter(steps[..n - 1]), last.cfg, last.source, StampAt(n, last.comment))
  }

  ghost function RunOf(steps: seq<Step>): (ws: seq<World>)
    requires |steps| < 10
    ensures |ws| == |steps| + 1 && ws[|steps|] == WorldAfter(steps)
  {
    if steps == [] then [FRESH_START] else RunOf(steps[..|steps| - 1]) + [WorldAfter(steps)]
  }

  /** The steps are a run that made one archive of the given name each. */
  ghost predicate Reached(steps: seq<Step>, kinds: seq<Kind>)
    requires |steps| < 10
  {
    var w := WorldAfter(steps);
    && |kinds| == |steps|
    && Run(SITE, RunOf(steps)) && Settled(w)
    && ChainOf(SITE, w) == NamesOf(steps, kinds)
    && (forall n | n in w.disk.archives :: w.disk.archives[n].time <= |steps|)
    && (forall e | e in OfWorld(SITE, w.history) :: !e.isImportant)
  }

  ghost function NamesOf(steps: seq<Step>, kinds: seq<Kind>): seq<ArchiveName>
    requires |steps| == |kinds| && |steps| < 10
  {
    seq(|steps|, i requires 0 <= i < |steps| => NameAt(i + 1, kinds[i], steps[i].comment))
  }

  lemma StemStart(n: nat, comment: string)
    requires n < 10
    ensures var stem := Lower(StampStem(SITE, StampAt(n, comment))); 1 < |stem| && stem[1] == ('0' as int + n) as char
  {
    BracketedDigit(('0' as int + n) as char,
                   Sanitized(SITE.worldName) + (CommentPart(comment) + Tail(StampAt(n, comment).parts)));
  }

  lemma BracketedDigit(c: char, rest: string)
    requires '0' <= c <= '9'
    ensures var text := Lower("[" + [c] + "]" + rest); 1 < |text| && text[1] == c
  {}

  /** The n-th name, as the clock in it shows. */
  predicate Numbered(stem: string, n: nat)
  {
    n < 10 && 1 < |Lower(stem)| && Lower(stem)[1] == ('0' as int + n) as char
  }

  lemma {:induction false} NamesNumbered(steps: seq<Step>, kinds: seq<Kind>, i: nat)
    requires |steps| == |kinds| < 10 && i < |steps|
    ensures NamesOf(steps, kinds)[i].Named? && Numbered(NamesOf(steps, kinds)[i].stem, i + 1)
  {
    StemStart(i + 1, steps[i].comment);
  }

  lemma {:induction false} FreshAmong(d: Disk, steps: seq<Step>, kinds: seq<Kind>, comment: string)
    requires |steps| == |kinds| < 9 && InPlay(d) <= Elems(NamesOf(steps, kinds))
    ensures FreshStem(d, StampStem(SITE, StampAt(|steps| + 1, comment)))
  {
    forall i | 0 <= i < |steps| ensures NamesOf(steps, kinds)[i].Named? && Numbered(NamesOf(steps, kinds)[i].stem, i + 1) {
      NamesNumbered(steps, kinds, i);
    }
    StemStart(|steps| + 1, comment);
    FreshNumber(d, NamesOf(steps, kinds), StampStem(SITE, StampAt(|steps| + 1, comment)));
  }

  lemma {:induction false} FreshNumber(d: Disk, names: seq<ArchiveName>, stem: string)
    requires InPlay(d) <= Elems(names) && |names| < 9 && Numbered(stem, |names| + 1)
    requires forall i | 0 <= i < |names| :: names[i].Named? && Numbered(names[i].stem, i + 1)
    ensures FreshStem(d, stem)
  {
    forall n | n in InPlay(d) && n.Named? ensures Lower(n.stem) != Lower(stem) {
      assert n in Elems(names);
    }
  }

  lemma {:induction false} ReachedIsGood(steps: seq<Step>, kinds: seq<Kind>, comment: string)
    requires |steps| < 9 && Reached(steps, kinds)
    ensures GoodStamp(WorldAfter(steps), StampAt(|steps| + 1, comment))
  {
    FreshAmong(WorldAfter(steps).disk, steps, kinds, comment);
  }

  /** What one more backup, in which nothing fails, brings. */
  lemma {:induction false} StepFits(steps: seq<Step>, kinds: seq<Kind>, step: Step)
    requires |steps| < 9 && Reached(steps, kinds)
    requires DecisionAt(WorldAfter(steps), step.cfg, step.source).Make?
    ensures var w, stamp := WorldAfter(steps), StampAt(|steps| + 1, step.comment);
      var b := BackupAt(w, step.cfg, step.source, stamp);
      && WorldAfter(steps + [step]) == Committed(w, b) && Next(SITE, w, Committed(w, b))
      && CreatesNext(SITE, w, Committed(w, b), step.cfg, step.source, ChainOf(SITE, w), false, stamp)
      && Fits(SITE, w, b) && b.name == NameAt(|steps| + 1, DecisionAt(w, step.cfg, step.source).kind, step.comment)
      && b.name !in w.disk.archives && b.name !in w.disk.records
      && b.entry.timestamp == "" && !b.entry.isImportant && b.archive.time == |steps| + 1
      && RecordOf(b).basedOn in w.disk.archives.Keys + {b.name}
  {
    var w, stamp := WorldAfter(steps), StampAt(|steps| + 1, step.comment);
    ReachedIsGood(steps, kinds, step.comment);
    BackupIs(w, step.cfg, step.source, stamp);
    BackedIsNext(w, step.cfg, step.source, stamp);
    NameIsFree(w.disk, BackupAt(w, step.cfg, step.source, stamp).name);
    assert (steps + [step])[..|steps|] == steps;
  }

  lemma {:induction false} ReachNext(steps: seq<Step>, kinds: seq<Kind>, step: Step)
    requires |steps| < 9 && Reached(steps, kinds)
    requires DecisionAt(WorldAfter(steps), step.cfg, step.source).Make?
    ensures Reached(steps + [step], kinds + [DecisionAt(WorldAfter(steps), step.cfg, step.source).kind])
  {
    var w := WorldAfter(steps);
    StepFits(steps, kinds, step);
    RunOfNext(steps, step);
    CommittedReaches(steps, kinds, step, DecisionAt(w, step.cfg, step.source).kind,
                     BackupAt(w, step.cfg, step.source, StampAt(|steps| + 1, step.comment)));
  }

  lemma {:induction false} CommittedReaches(steps: seq<Step>, kinds: seq<Kind>, step: Step, kind: Kind, b: NewBackup)
    requires |steps| < 9 && Reached(steps, kinds) && Run(SITE, RunOf(steps + [step]))
    requires WorldAfter(steps + [step]) == Committed(WorldAfter(steps), b)
    requires Fits(SITE, WorldAfter(steps), b) && b.name == NameAt(|steps| + 1, kind, step.comment)
    requires b.entry.timestamp == "" && !b.entry.isImportant && b.archive.time == |steps| + 1
    requires RecordOf(b).basedOn in WorldAfter(steps).disk.archives.Keys + {b.name}
    ensures Reached(steps + [step], kinds + [kind])
  {
    var w := WorldAfter(steps);
    FittingSettles(w, b);
    NamesGrow(steps, kinds, step, kind);
    CommittedQuiet(w, b, |steps|);
  }

  lemma CommittedQuiet(w: World, b: NewBackup, n: int)
    requires SITE.Owns(b.entry) && !b.entry.isImportant && b.archive.time == n + 1
    requires forall m | m in w.disk.archives :: w.disk.archives[m].time <= n
    requires forall e | e in OfWorld(SITE, w.history) :: !e.isImportant
    ensures forall m | m in Committed(w, b).disk.archives :: Committed(w, b).disk.archives[m].time <= n + 1
    ensures forall e | e in OfWorld(SITE, Committed(w, b).history) :: !e.isImportant
  {
    var longer := w.history + [b.entry];
    assert longer[..|longer| - 1] == w.history;
  }

  lemma {:induction false} RunOfNext(steps: seq<Step>, step: Step)
    requires |steps| < 9 && Run(SITE, RunOf(steps)) && Next(SITE, WorldAfter(steps), WorldAfter(steps + [step]))
    ensures Run(SITE, RunOf(steps + [step]))
  {
    assert (steps + [step])[..|steps|] == steps;
    RunGoesOn(RunOf(steps), WorldAfter(steps + [step]));
  }

  lemma {:induction false} NamesGrow(steps: seq<Step>, kinds: seq<Kind>, step: Step, kind: Kind)
    requires |steps| == |kinds| < 9
    ensures NamesOf(steps + [step], kinds + [kind]) == NamesOf(steps, kinds) + [NameAt(|steps| + 1, kind, step.comment)]
  {
    OneMore(NamesOf(steps + [step], kinds + [kind]), NamesOf(steps, kinds), NameAt(|steps| + 1, kind, step.comment));
  }

  lemma {:induction false} OneMore<T>(longer: seq<T>, s: seq<T>, x: T)
    requires |longer| == |s| + 1 && longer[|s|] == x && forall i | 0 <= i < |s| :: longer[i] == s[i]
    ensures longer == s + [x]
  {}

  lemma {:induction false} RunGoesOn(ws: seq<World>, x: World)
    requires Run(SITE, ws) && Next(SITE, ws[|ws| - 1], x)
    ensures Run(SITE, ws + [x])
  {
    var longer := ws + [x];
    forall i | 0 <= i < |longer| - 1 ensures Next(SITE, longer[i], longer[i + 1]) {
      if i < |ws| - 1 {
        assert Next(SITE, ws[i], ws[i + 1]);
        assert longer[i] == ws[i] && longer[i + 1] == ws[i + 1];
      } else {
        assert longer[i] == ws[|ws| - 1] && longer[i + 1] == x;
      }
    }
  }

  lemma ReachStart()
    ensures Reached([], [])
  {
    FreshStartSettled();
    assert NamesOf([], []) == [];
    assert OfWorld(SITE, []) == [];
  }

  // ---- what the steps decide ----

  /** The saved state describes that source and names archives that are there. */
  ghost predicate Saved(w: World, source: Source)
  {
    && w.disk.state.Some? && Collect(source).Some?
    && var s := w.disk.state.value;
       && s.files == StatesOf(source)
       && s.last.Named? && s.last in w.disk.archives && s.basedOn.Named? && s.basedOn in w.disk.archives
  }

  lemma CurrentIs(w: World, cfg: BackupConfig, source: Source)
    requires DecisionAt(w, cfg, source).Make?
    ensures Collect(source).Some? && DecisionAt(w, cfg, source).current == StatesOf(source)
  {
    if IsSmart(DecisionAt(w, cfg, source).kind) {
      SmartNeedsBase(SITE, cfg, w.disk, source, ChainOf(SITE, w), false);
    } else {
      CheckpointTakesAll(SITE, cfg, w.disk, source, ChainOf(SITE, w), false);
    }
    assert FilterStates(StatesOf(source), SITE.blacklisted) == StatesOf(source);
  }

  lemma {:induction false} StepSaves(steps: seq<Step>, kinds: seq<Kind>, step: Step)
    requires |steps| < 9 && Reached(steps, kinds)
    requires DecisionAt(WorldAfter(steps), step.cfg, step.source).Make?
    ensures Saved(WorldAfter(steps + [step]), step.source)
  {
    var w := WorldAfter(steps);
    StepFits(steps, kinds, step);
    CurrentIs(w, step.cfg, step.source);
    ReachNext(steps, kinds, step);
    CommittedSaves(w, BackupAt(w, step.cfg, step.source, StampAt(|steps| + 1, step.comment)), step.source);
  }

  lemma CommittedSaves(w: World, b: NewBackup, source: Source)
    requires Inv(SITE, Committed(w, b)) && b.current == StatesOf(source) && Collect(source).Some?
    ensures Saved(Committed(w, b), source)
  {
    StateNames(Committed(w, b));
  }

  lemma StateNames(w: World)
    requires Inv(SITE, w) && w.disk.state.Some? && w.disk.state.value.last in w.disk.archives
    ensures w.disk.state.value.last.Named? && w.disk.state.value.basedOn.Named?
    ensures w.disk.state.value.basedOn in w.disk.archives
  {
    var chain := ChainOf(SITE, w);
    assert Link(w.disk, chain, |chain| - 1);
    BaseIsRoot(w.disk, chain, |chain| - 1);
  }

  lemma FirstDecided(cfg: BackupConfig, scan: ScanResult)
    requires scan.status == MetadataInvalid && (cfg.mode == 3 || (cfg.mode == 2 && scan.current != map[]))
    ensures var dec := Decide(cfg, true, false, scan, SITE.blacklisted);
      dec.Make? && dec.kind == if cfg.mode == 3 then Overwrite else Full
  {
    var current := FilterStates(scan.current, SITE.blacklisted);
    assert current == scan.current;
    ListingEmpty(current.Keys);
    if current != map[] {
      var p :| p in current;
      assert p in current.Keys;
    }
  }

  lemma FirstMakes(cfg: BackupConfig, source: Source)
    requires Collect(source).Some? && (cfg.mode == 3 || (cfg.mode == 2 && source != map[]))
    ensures DecisionAt(FRESH_START, cfg, source).Make?
    ensures DecisionAt(FRESH_START, cfg, source).kind == if cfg.mode == 3 then Overwrite else Full
  {
    FreshStartSettled();
    if source != map[] {
      var p :| p in source;
      assert p in StatesOf(source);
    }
    FirstDecided(cfg, Scanned(source, None, {}));
    assert FRESH_START.disk.archives.Keys == {};
  }

  /** What differs between two states of the world. */
  function Differing(previous: States, current: States): set<Path>
  {
    AddedPaths(previous, current) + ModifiedPaths(previous, current) + AddedPaths(current, previous)
  }

  lemma SmartDecided(limit: int, scan: ScanResult)
    requires scan.status == ChangesDetected && scan.basedOn.Named?
    requires var c := FilterChanges(scan.changes, SITE.blacklisted);
             c != NO_CHANGES && (Kept(scan.changed, Allowed(SITE.blacklisted)) != [] || c.deleted != [])
    ensures var dec := Decide(SmartMode(limit), false, false, scan, SITE.blacklisted); dec.Make? && IsSmart(dec.kind)
  {}

  lemma DifferenceShows(was: States, all: States)
    requires Differing(was, all) != {}
    ensures var c := FilterChanges(Diff(was, all), SITE.blacklisted);
      && Diff(was, all) != NO_CHANGES && c != NO_CHANGES
      && (Kept(Candidates(was, all), Allowed(SITE.blacklisted)) != [] || c.deleted != [])
  {
    assert FilterStates(all, SITE.blacklisted) == all;
    SmartFiles(SITE, was, all);
    ListingEmpty(AddedPaths(was, all));
    ListingEmpty(ModifiedPaths(was, all));
    ListingEmpty(AddedPaths(all, was));
    assert Kept(Candidates(was, all), Allowed(SITE.blacklisted)) == [] ==> Elems(Kept(Candidates(was, all), Allowed(SITE.blacklisted))) == {};
  }

  /** A changed world is backed up by a Smart archive while the limit allows it. */
  lemma SmartMakes(w: World, limit: int, source: Source, before: Source)
    requires Saved(w, before) && Collect(source).Some? && Differing(StatesOf(before), StatesOf(source)) != {}
    requires HasFullLike(ChainOf(SITE, w)) && (limit > 0 ==> SmartRun(ChainOf(SITE, w)) < limit)
    ensures DecisionAt(w, SmartMode(limit), source).Make? && IsSmart(DecisionAt(w, SmartMode(limit), source).kind)
  {
    DifferenceShows(StatesOf(before), StatesOf(source));
    SmartDecided(limit, Scanned(source, w.disk.state, w.disk.archives.Keys));
  }

  // ---- first and further steps ----

  ghost predicate StartsChain(step: Step)
  {
    Collect(step.source).Some? && (step.cfg.mode == 3 || (step.cfg.mode == 2 && step.source != map[]))
  }

  function FirstKind(step: Step): Kind { if step.cfg.mode == 3 then Overwrite else Full }

  lemma ReachFirst(step: Step)
    requires StartsChain(step)
    ensures Reached([step], [FirstKind(step)]) && Saved(WorldAfter([step]), step.source)
  {
    FirstMakes(step.cfg, step.source);
    FirstReached(step, FirstKind(step));
  }

  lemma FirstReached(step: Step, kind: Kind)
    requires DecisionAt(FRESH_START, step.cfg, step.source).Make? && DecisionAt(FRESH_START, step.cfg, step.source).kind == kind
    ensures Reached([step], [kind]) && Saved(WorldAfter([step]), step.source)
  {
    ReachStart();
    ReachNext([], [], step);
    StepSaves([], [], step);
    assert [] + [step] == [step] && [] + [kind] == [kind];
  }

  /** The first record lists the files of the source. */
  lemma FirstRecord(step: Step)
    requires StartsChain(step)
    ensures var w, n := WorldAfter([step]), NameAt(1, FirstKind(step), step.comment);
      n in w.disk.records && w.disk.records[n].fullList == Listing(step.source.Keys)
  {
    FirstMakes(step.cfg, step.source);
    FirstRecorded(step, FirstKind(step));
    assert StatesOf(step.source).Keys == step.source.Keys;
  }

  lemma FirstRecorded(step: Step, kind: Kind)
    requires DecisionAt(FRESH_START, step.cfg, step.source).Make? && DecisionAt(FRESH_START, step.cfg, step.source).kind == kind
    requires IsFullLike(kind)
    ensures var w, n := WorldAfter([step]), NameAt(1, kind, step.comment);
      n in w.disk.records && w.disk.records[n].fullList == Listing(StatesOf(step.source).Keys)
  {
    ReachStart();
    StepFits([], [], step);
    CurrentIs(FRESH_START, step.cfg, step.source);
    assert [] + [step] == [step];
  }

  /** One more Smart archive; the older records stay. */
  lemma {:induction false} ReachSmart(steps: seq<Step>, kinds: seq<Kind>, step: Step, limit: int, before: Source)
    requires |steps| < 9 && Reached(steps, kinds) && Saved(WorldAfter(steps), before) && step.cfg == SmartMode(limit)
    requires Collect(step.source).Some? && Differing(StatesOf(before), StatesOf(step.source)) != {}
    requires HasFullLike(NamesOf(steps, kinds)) && (limit > 0 ==> SmartRun(NamesOf(steps, kinds)) < limit)
    ensures Reached(steps + [step], kinds + [Smart]) && Saved(WorldAfter(steps + [step]), step.source)
    ensures var w, x := WorldAfter(steps), WorldAfter(steps + [step]);
      forall n | n in w.disk.records :: n in x.disk.records && x.disk.records[n] == w.disk.records[n]
  {
    SmartMakes(WorldAfter(steps), limit, step.source, before);
    StepFits(steps, kinds, step);
    ReachNext(steps, kinds, step);
    StepSaves(steps, kinds, step);
  }

  lemma OneFileIs(size: FileSize)
    ensures Collect(OneFile(size)).Some? && StatesOf(OneFile(size)) == map["w" := FileState(size, "t", "")]
  {
    assert Segments("w") == ["w"] by {
      assert "w"[1..] == "" && Segments("") == [""];
      assert ['w'] + "" == "w" && [""][1..] == [];
      assert ["w"] + [] == ["w"];
    }
    assert Slashed("w") == "w";
    NoDevice("w");
  }

  lemma PlainReads(n: nat, kind: Kind)
    requires n < 10
    ensures ReadsSmart(NameAt(n, kind, "")) <==> IsSmart(kind)
    ensures ReadsFullLike(NameAt(n, kind, "")) <==> IsFullLike(kind)
  {
    GeneratedReads(kind, "W", "", StampAt(n, "").parts);
    NothingBrought(Smart);
    NothingBrought(Full);
    NothingBrought(Overwrite);
  }

  lemma NothingBrought(k: Kind)
    ensures !Brings("W", "", k)
  {
    EmptyFixed();
    assert SafeComment("") == "";
    NoDevice("W");
    SanitizedFixed("W");
    MarkerShape(k);
    HoldsNeeds("W", Marker(k));
  }

  lemma MisreadReads(n: nat)
    requires n < 10
    ensures ReadsSmart(NameAt(n, Smart, "Full")) && ReadsFullLike(NameAt(n, Smart, "Full"))
  {
    GeneratedReads(Smart, "W", "Full", StampAt(n, "Full").parts);
    WordComment(Full);
  }

  // ---- a checkpoint and Smart archives after it ----

  lemma FirstName(step: Step)
    requires StartsChain(step) && step.comment == ""
    ensures NamesOf([step], [FirstKind(step)]) == [NameAt(1, FirstKind(step), "")]
    ensures HasFullLike(NamesOf([step], [FirstKind(step)])) && SmartRun(NamesOf([step], [FirstKind(step)])) == 0
  {
    PlainReads(1, FirstKind(step));
    OneCheckpoint(NamesOf([step], [FirstKind(step)]), NameAt(1, FirstKind(step), ""));
  }

  lemma {:induction false} OneCheckpoint(names: seq<ArchiveName>, n: ArchiveName)
    requires |names| == 1 && names[0] == n && ReadsFullLike(n)
    ensures names == [n] && HasFullLike(names) && SmartRun(names) == 0
  {}

  ghost predicate Continues(step: Step, limit: int, before: Source)
  {
    && step.cfg == SmartMode(limit) && Collect(step.source).Some?
    && Differing(StatesOf(before), StatesOf(step.source)) != {}
  }

  lemma TwoSteps(first: Step, second: Step, limit: int)
    requires StartsChain(first) && first.comment == "" && Continues(second, limit, first.source)
    ensures Reached([first] + [second], [FirstKind(first)] + [Smart]) && Saved(WorldAfter([first] + [second]), second.source)
    ensures var d, n := WorldAfter([first] + [second]).disk, NameAt(1, FirstKind(first), "");
      n in d.records && d.records[n].fullList == Listing(first.source.Keys)
  {
    ReachFirst(first);
    FirstRecord(first);
    FirstName(first);
    ReachSmart([first], [FirstKind(first)], second, limit, first.source);
  }

  // ---- an empty checkpoint ----

  const EMPTY_WORLD := Step(OVERWRITE_MODE, map[], "")
  const ONE_FILE := Step(SmartMode(0), OneFile(1), "")

  lemma EmptyContinues()
    ensures StartsChain(EMPTY_WORLD) && Continues(ONE_FILE, 0, EMPTY_WORLD.source)
    ensures Listing(EMPTY_WORLD.source.Keys) == []
  {
    assert StatesOf(map[]) == map[];
    OneFileIs(1);
    assert "w" in Differing(StatesOf(map[]), StatesOf(OneFile(1)));
    ListingEmpty({});
    assert EMPTY_WORLD.source.Keys == {};
  }

  /** A world of a checkpoint and one Smart archive. */
  ghost predicate Pair(w: World, first: ArchiveName, second: ArchiveName)
  {
    && Inv(SITE, w) && ChainOf(SITE, w) == [first, second]
    && IsFullLike(first.KindOf()) && IsSmart(second.KindOf())
    && forall e | e in OfWorld(SITE, w.history) :: !e.isImportant
  }

  lemma {:induction false} SeqOfTwo<T>(s: seq<T>, a: T, b: T)
    requires |s| == 2 && s[0] == a && s[1] == b
    ensures s == [a, b]
  {}

  lemma {:induction false} ReachedPair(steps: seq<Step>, kinds: seq<Kind>)
    requires |steps| == 2 && Reached(steps, kinds) && IsFullLike(kinds[0]) && kinds[1] == Smart
    ensures Pair(WorldAfter(steps), NameAt(1, kinds[0], steps[0].comment), NameAt(2, Smart, steps[1].comment))
  {
    SeqOfTwo(NamesOf(steps, kinds), NameAt(1, kinds[0], steps[0].comment), NameAt(2, Smart, steps[1].comment));
    SettledPair(WorldAfter(steps), NameAt(1, kinds[0], steps[0].comment), NameAt(2, Smart, steps[1].comment));
  }

  lemma SettledPair(w: World, first: ArchiveName, second: ArchiveName)
    requires Settled(w) && ChainOf(SITE, w) == [first, second]
    requires IsFullLike(first.KindOf()) && IsSmart(second.KindOf())
    requires forall e | e in OfWorld(SITE, w.history) :: !e.isImportant
    ensures Pair(w, first, second)
  {}

  /** A Smart archive on a checkpoint that lists no file cannot be restored, and the checkpoint not be removed. */
  lemma UnlistedPair(w: World, first: ArchiveName, second: ArchiveName)
    requires Pair(w, first, second) && !ReadsFullLike(second)
    requires first in w.disk.records && w.disk.records[first].fullList == []
    ensures ManagedRestore(w.disk, second) == Err(PlanInvalid)
    ensures |OfWorld(SITE, w.history)| == 2 && Unlisted(SITE, w, OfWorld(SITE, w.history)[0])
    ensures w.disk.state.Some? && w.disk.state.value.last in w.disk.archives ==> w.disk.state.value.last == second
  {
    SmartBase(w.disk, ChainOf(SITE, w));
    UnlistedEntry(w);
  }

  lemma UnlistedEntry(w: World)
    requires Inv(SITE, w) && |OfWorld(SITE, w.history)| == 2
    requires var chain := ChainOf(SITE, w);
             ReadsFullLike(chain[0]) && !ReadsFullLike(chain[1]) && chain[0] in w.disk.records && w.disk.records[chain[0]].fullList == []
    ensures Unlisted(SITE, w, OfWorld(SITE, w.history)[0])
  {
    var mine := OfWorld(SITE, w.history);
    OfWorldMembers(SITE, w.history, mine[0]);
    FoundInOrder(SITE, w, mine[0], 0);
    EntryReads(SITE, w.history, 0);
    EntryReads(SITE, w.history, 1);
    assert UnlistedAt(SITE, w, mine[0], 0);
  }

  lemma {:induction false} SmartBase(d: Disk, chain: seq<ArchiveName>)
    requires ChainOk(d, chain) && |chain| == 2 && IsFullLike(chain[0].KindOf()) && IsSmart(chain[1].KindOf())
    ensures d.records[chain[0]].fullList == [] ==> ManagedRestore(d, chain[1]) == Err(PlanInvalid)
  {
    RestoreByBase(d, chain, 1);
    BaseIsRoot(d, chain, 1);
    assert Link(d, chain, 0);
  }

  /** What an empty checkpoint blocks. */
  ghost predicate Blocked(w: World, kind: Kind)
  {
    && Inv(SITE, w)
    && w.disk.state.Some? && w.disk.state.value.last in w.disk.archives
    && ManagedRestore(w.disk, w.disk.state.value.last) == Err(PlanInvalid)
    && |OfWorld(SITE, w.history)| == 2 && OfWorld(SITE, w.history)[0].backupType == kind
    && Unlisted(SITE, w, OfWorld(SITE, w.history)[0])
  }

  lemma PairIsBlocked(w: World, first: ArchiveName, second: ArchiveName, source: Source)
    requires Pair(w, first, second) && !ReadsFullLike(second) && Saved(w, source)
    requires first in w.disk.records && w.disk.records[first].fullList == []
    ensures Blocked(w, first.KindOf())
  {
    UnlistedPair(w, first, second);
    EntryReads(SITE, w.history, 0);
  }

  lemma PlainPairIsBlocked(w: World, kind: Kind, source: Source)
    requires Pair(w, NameAt(1, kind, ""), NameAt(2, Smart, "")) && Saved(w, source)
    requires NameAt(1, kind, "") in w.disk.records && w.disk.records[NameAt(1, kind, "")].fullList == []
    ensures Blocked(w, kind)
  {
    PlainReads(2, Smart);
    PairIsBlocked(w, NameAt(1, kind, ""), NameAt(2, Smart, ""), source);
  }

  lemma UnlistedRun(first: Step, second: Step)
    requires StartsChain(first) && first.comment == "" && Continues(second, 0, first.source) && second.comment == ""
    requires Listing(first.source.Keys) == []
    ensures var steps := [first] + [second]; Run(SITE, RunOf(steps)) && Blocked(WorldAfter(steps), FirstKind(first))
  {
    TwoSteps(first, second, 0);
    ReachedPair([first] + [second], [FirstKind(first)] + [Smart]);
    PlainPairIsBlocked(WorldAfter([first] + [second]), FirstKind(first), second.source);
  }

  /** After an Overwrite of an empty world and a Smart backup of one file, the archive the saved
      state names cannot be restored, and the Overwrite is never removed while the Smart one follows. */
  lemma EmptyCheckpointBlocks()
    ensures var steps := [EMPTY_WORLD] + [ONE_FILE]; Run(SITE, RunOf(steps)) && Blocked(WorldAfter(steps), Overwrite)
  {
    EmptyContinues();
    UnlistedRun(EMPTY_WORLD, ONE_FILE);
  }

  // ---- an archive stranded by a removal ----

  const NO_FILE := Step(SmartMode(0), map[], "")

  lemma FilesComeAndGo()
    ensures StartsChain(ONE_FILE) && Continues(NO_FILE, 0, ONE_FILE.source) && Continues(ONE_FILE, 0, NO_FILE.source)
  {
    assert StatesOf(map[]) == map[];
    OneFileIs(1);
    assert "w" in Differing(StatesOf(map[]), StatesOf(OneFile(1)));
    assert "w" in Differing(StatesOf(OneFile(1)), StatesOf(map[]));
  }

  lemma ThreeSteps(first: Step, second: Step, third: Step, limit: int)
    requires StartsChain(first) && first.comment == ""
    requires Continues(second, limit, first.source) && Continues(third, limit, second.source)
    requires limit > 0 ==> SmartRun(NamesOf([first] + [second], [FirstKind(first)] + [Smart])) < limit
    ensures Reached([first] + [second] + [third], [FirstKind(first)] + [Smart] + [Smart])
    ensures var w, x := WorldAfter([first] + [second]), WorldAfter([first] + [second] + [third]);
      && Reached([first] + [second], [FirstKind(first)] + [Smart]) && Saved(w, second.source)
      && forall n | n in w.disk.records :: n in x.disk.records && x.disk.records[n] == w.disk.records[n]
  {
    var steps, kinds := [first] + [second], [FirstKind(first)] + [Smart];
    TwoSteps(first, second, limit);
    PlainReads(1, FirstKind(first));
    assert ReadsFullLike(NamesOf(steps, kinds)[0]);
    ReachSmart(steps, kinds, third, limit, second.source);
  }

  lemma ThreeAreReached(first: Step, second: Step, third: Step, limit: int)
    requires StartsChain(first) && first.comment == ""
    requires Continues(second, limit, first.source) && Continues(third, limit, second.source)
    requires limit > 0 ==> SmartRun(NamesOf([first] + [second], [FirstKind(first)] + [Smart])) < limit
    ensures Reached([first] + [second] + [third], [FirstKind(first)] + [Smart] + [Smart])
  {
    ThreeSteps(first, second, third, limit);
  }

  /** The second record deletes all that the checkpoint lists, which is something. */
  ghost predicate Emptied(d: Disk, first: ArchiveName, second: ArchiveName)
  {
    && first in d.records && second in d.records && d.records[first].fullList != []
    && After(d.records[second].changes, Elems(d.records[first].fullList)) == {}
  }

  lemma SecondEmpties(first: Step, second: Step)
    requires StartsChain(first) && first.comment == "" && Continues(second, 0, first.source)
    requires second.source == map[] && Listing(first.source.Keys) != []
    ensures Emptied(WorldAfter([first] + [second]).disk, NameAt(1, FirstKind(first), ""), NameAt(2, Smart, second.comment))
  {
    TwoSteps(first, second, 0);
    ReachedPair([first] + [second], [FirstKind(first)] + [Smart]);
    assert StatesOf(second.source) == map[];
    EmptiedPair(WorldAfter([first] + [second]), NameAt(1, FirstKind(first), ""), NameAt(2, Smart, second.comment));
  }

  lemma EmptiedPair(w: World, first: ArchiveName, second: ArchiveName)
    requires Pair(w, first, second) && Saved(w, map[]) && StatesOf(map[]) == map[]
    ensures var chain := ChainOf(SITE, w);
      && chain[0] in w.disk.records && chain[1] in w.disk.records
      && After(w.disk.records[chain[1]].changes, Elems(w.disk.records[chain[0]].fullList)) == {}
  {
    var chain := ChainOf(SITE, w);
    SavedIsReplayed(SITE, w);
    ReplayKeys(w.disk, chain, 1);
    ReplayKeys(w.disk, chain, 0);
    assert Link(w.disk, chain, 0);
  }

  /** A world of a checkpoint and two Smart archives. */
  ghost predicate Triple(w: World, first: ArchiveName, second: ArchiveName, third: ArchiveName)
  {
    && Inv(SITE, w) && ChainOf(SITE, w) == [first, second, third]
    && IsFullLike(first.KindOf()) && IsSmart(second.KindOf()) && IsSmart(third.KindOf())
    && forall e | e in OfWorld(SITE, w.history) :: !e.isImportant
  }

  lemma SettledTriple(w: World, first: ArchiveName, second: ArchiveName, third: ArchiveName)
    requires Settled(w) && ChainOf(SITE, w) == [first, second, third]
    requires IsFullLike(first.KindOf()) && IsSmart(second.KindOf()) && IsSmart(third.KindOf())
    requires forall e | e in OfWorld(SITE, w.history) :: !e.isImportant
    ensures Triple(w, first, second, third)
  {}

  lemma {:induction false} SeqOfThree<T>(s: seq<T>, a: T, b: T, c: T)
    requires |s| == 3 && s[0] == a && s[1] == b && s[2] == c
    ensures s == [a, b, c]
  {}

  lemma {:induction false} ReachedTriple(steps: seq<Step>, kinds: seq<Kind>)
    requires |steps| == 3 && Reached(steps, kinds) && IsFullLike(kinds[0]) && kinds[1] == Smart && kinds[2] == Smart
    ensures Triple(WorldAfter(steps), NameAt(1, kinds[0], steps[0].comment), NameAt(2, Smart, steps[1].comment),
                   NameAt(3, Smart, steps[2].comment))
  {
    var a, b, c := NameAt(1, kinds[0], steps[0].comment), NameAt(2, Smart, steps[1].comment), NameAt(3, Smart, steps[2].comment);
    SeqOfThree(NamesOf(steps, kinds), a, b, c);
    SettledTriple(WorldAfter(steps), a, b, c);
  }

  lemma TripleRemovable(w: World, first: ArchiveName, second: ArchiveName, third: ArchiveName)
    requires Triple(w, first, second, third) && !ReadsFullLike(second)
    requires first in w.disk.records && w.disk.records[first].fullList != []
    ensures Removable(SITE, w, 0) && Mergeable(w.disk, ChainOf(SITE, w), 0)
    ensures Root(w.disk, ChainOf(SITE, w), 2) == 0
  {
    assert Removable(SITE, w, 0);
    RemovableCases(SITE, w, 0);
  }

  /** When the second archive deletes everything, removing the first loses the third. */
  lemma TripleStranded(w: World, first: ArchiveName, second: ArchiveName, third: ArchiveName, now: string)
    requires Triple(w, first, second, third) && !ReadsFullLike(second)
    requires first in w.disk.records && w.disk.records[first].fullList != [] && second in w.disk.records
    requires After(w.disk.records[second].changes, Elems(w.disk.records[first].fullList)) == {}
    ensures Removable(SITE, w, 0)
    ensures ManagedRestore(w.disk, third).Ok?
    ensures ManagedRestore(AfterRemove(SITE, w, 0, now).disk, third) == Err(PlanInvalid)
  {
    var chain := ChainOf(SITE, w);
    TripleRemovable(w, first, second, third);
    MergedShape(chain, 0);
    StrandedFails(w.disk, chain, 0, now, 1);
  }

  ghost predicate LosesThird(w: World, third: ArchiveName, now: string)
  {
    && Inv(SITE, w) && Removable(SITE, w, 0)
    && ManagedRestore(w.disk, third).Ok?
    && ManagedRestore(AfterRemove(SITE, w, 0, now).disk, third) == Err(PlanInvalid)
  }

  lemma PlainTripleStranded(w: World, kind: Kind, now: string)
    requires Triple(w, NameAt(1, kind, ""), NameAt(2, Smart, ""), NameAt(3, Smart, ""))
    requires Emptied(w.disk, NameAt(1, kind, ""), NameAt(2, Smart, ""))
    ensures LosesThird(w, NameAt(3, Smart, ""), now)
  {
    PlainReads(2, Smart);
    TripleStranded(w, NameAt(1, kind, ""), NameAt(2, Smart, ""), NameAt(3, Smart, ""), now);
  }

  lemma EmptiedStays(first: Step, second: Step, third: Step)
    requires StartsChain(first) && first.comment == "" && Listing(first.source.Keys) != []
    requires Continues(second, 0, first.source) && Continues(third, 0, second.source) && second.source == map[]
    ensures Emptied(WorldAfter([first] + [second] + [third]).disk, NameAt(1, FirstKind(first), ""), NameAt(2, Smart, second.comment))
  {
    ThreeSteps(first, second, third, 0);
    SecondEmpties(first, second);
  }

  lemma ThreeReached(first: Step, second: Step, third: Step)
    requires StartsChain(first) && first.comment == "" && second.comment == "" && third.comment == ""
    requires Continues(second, 0, first.source) && Continues(third, 0, second.source)
    ensures var steps := [first] + [second] + [third];
      && Run(SITE, RunOf(steps))
      && Triple(WorldAfter(steps), NameAt(1, FirstKind(first), ""), NameAt(2, Smart, ""), NameAt(3, Smart, ""))
  {
    ThreeAreReached(first, second, third, 0);
    PlainTriple([first] + [second] + [third], [FirstKind(first)] + [Smart] + [Smart], FirstKind(first));
  }

  lemma {:induction false} PlainTriple(steps: seq<Step>, kinds: seq<Kind>, kind: Kind)
    requires |steps| == 3 && Reached(steps, kinds) && IsFullLike(kind) && kinds == [kind] + [Smart] + [Smart]
    requires steps[0].comment == "" && steps[1].comment == "" && steps[2].comment == ""
    ensures Run(SITE, RunOf(steps))
    ensures Triple(WorldAfter(steps), NameAt(1, kind, ""), NameAt(2, Smart, ""), NameAt(3, Smart, ""))
  {
    ReachedTriple(steps, kinds);
  }

  lemma StrandingRun(first: Step, second: Step, third: Step, now: string)
    requires StartsChain(first) && first.comment == "" && second.comment == "" && third.comment == ""
    requires Continues(second, 0, first.source) && Continues(third, 0, second.source) && second.source == map[]
    requires Listing(first.source.Keys) != []
    ensures var steps := [first] + [second] + [third];
      Run(SITE, RunOf(steps)) && LosesThird(WorldAfter(steps), NameAt(3, Smart, ""), now)
  {
    ThreeReached(first, second, third);
    EmptiedStays(first, second, third);
    PlainTripleStranded(WorldAfter([first] + [second] + [third]), FirstKind(first), now);
  }

  /** A Full, a Smart archive of the emptied world and a Smart archive of the refilled one: removing
      the Full turns the working restore of the last into a refused plan. */
  lemma RemovalCanStrandAnArchive(now: string)
    ensures var steps := [ONE_FILE] + [NO_FILE] + [ONE_FILE];
      Run(SITE, RunOf(steps)) && LosesThird(WorldAfter(steps), NameAt(3, Smart, ""), now)
  {
    FilesComeAndGo();
    ListingEmpty(OneFile(1).Keys);
    assert "w" in OneFile(1).Keys;
    StrandingRun(ONE_FILE, NO_FILE, ONE_FILE, now);
  }

  // ---- a comment that misleads ----

  const ONE_LIMITED := Step(SmartMode(1), OneFile(1), "")
  const TWO_NAMED_FULL := Step(SmartMode(1), OneFile(2), "Full")

  lemma SizesChange()
    ensures StartsChain(ONE_LIMITED) && Continues(TWO_NAMED_FULL, 1, ONE_LIMITED.source)
    ensures Continues(ONE_LIMITED, 1, TWO_NAMED_FULL.source)
  {
    OneFileIs(1);
    OneFileIs(2);
    assert "w" in Differing(StatesOf(OneFile(1)), StatesOf(OneFile(2)));
    assert "w" in Differing(StatesOf(OneFile(2)), StatesOf(OneFile(1)));
  }

  /** Removing a checkpoint before a misread Smart archive loses that archive and the invariant. */
  ghost predicate LosesSecond(w: World, second: ArchiveName, now: string)
  {
    && Inv(SITE, w) && Removable(SITE, w, 0)
    && ManagedRestore(w.disk, second).Ok?
    && var x := AfterRemove(SITE, w, 0, now);
       Next(SITE, w, x) && !Inv(SITE, x) && ManagedRestore(x.disk, second) == Err(MetadataMissing)
  }

  lemma MisreadPair(w: World, first: ArchiveName, second: ArchiveName, now: string)
    requires Pair(w, first, second) && ReadsFullLike(second)
    requires first in w.disk.records && w.disk.records[first].fullList != []
    ensures LosesSecond(w, second, now)
  {
    var chain := ChainOf(SITE, w);
    assert Removable(SITE, w, 0) && Misleads(chain, 0);
    RemoveKeepsInv(SITE, w, 0, now);
    DirectRemovalKeepsRestores(SITE, w, 0, now);
    SmartBase(w.disk, chain);
    PairRestores(w.disk, chain);
    var x := AfterRemove(SITE, w, 0, now);
    RemovalIsFull(SITE, w, 0, now, true, x);
    assert RemoveStep(SITE, w, x, OfWorld(SITE, w.history)[0], now, true);
  }

  lemma {:induction false} PairRestores(d: Disk, chain: seq<ArchiveName>)
    requires ChainOk(d, chain) && |chain| == 2 && IsFullLike(chain[0].KindOf()) && IsSmart(chain[1].KindOf())
    requires d.records[chain[0]].fullList != []
    ensures ManagedRestore(d, chain[1]).Ok?
  {
    RestoreByBase(d, chain, 1);
    BaseIsRoot(d, chain, 1);
  }

  lemma MisreadRun(first: Step, second: Step, now: string)
    requires StartsChain(first) && first.comment == "" && second.comment == "Full" && Continues(second, 1, first.source)
    requires Listing(first.source.Keys) != []
    ensures var steps := [first] + [second];
      Run(SITE, RunOf(steps)) && LosesSecond(WorldAfter(steps), NameAt(2, Smart, "Full"), now)
  {
    TwoSteps(first, second, 1);
    ReachedPair([first] + [second], [FirstKind(first)] + [Smart]);
    MisreadReads(2);
    MisreadPair(WorldAfter([first] + [second]), NameAt(1, FirstKind(first), ""), NameAt(2, Smart, "Full"), now);
  }

  /** A Full and a Smart backup with the comment "Full": removing the Full is a step of the program
      after which the Smart archive can no longer be restored. */
  lemma CommentCanLoseAnArchive(now: string)
    ensures var steps := [ONE_LIMITED] + [TWO_NAMED_FULL];
      Run(SITE, RunOf(steps)) && LosesSecond(WorldAfter(steps), NameAt(2, Smart, "Full"), now)
  {
    SizesChange();
    ListingEmpty(OneFile(1).Keys);
    assert "w" in OneFile(1).Keys;
    MisreadRun(ONE_LIMITED, TWO_NAMED_FULL, now);
  }

  // ---- a limit that is not kept ----

  lemma {:induction false} LimitGoesOn(ws: seq<World>, x: World, n: nat)
    requires LimitedRun(SITE, ws, n) && LimitedNext(SITE, ws[|ws| - 1], x, n)
    ensures LimitedRun(SITE, ws + [x], n)
  {
    var longer := ws + [x];
    forall i | 0 <= i < |longer| - 1 ensures LimitedNext(SITE, longer[i], longer[i + 1], n) {
      if i < |ws| - 1 {
        assert LimitedNext(SITE, ws[i], ws[i + 1], n);
        assert longer[i] == ws[i] && longer[i + 1] == ws[i + 1];
      } else {
        assert longer[i] == ws[|ws| - 1] && longer[i + 1] == x;
      }
    }
  }

  lemma {:induction false} LimitNext(steps: seq<Step>, kinds: seq<Kind>, step: Step, n: nat)
    requires |steps| < 9 && Reached(steps, kinds) && LimitedRun(SITE, RunOf(steps), n) && step.cfg.maxSmart == n
    requires DecisionAt(WorldAfter(steps), step.cfg, step.source).Make?
    ensures LimitedRun(SITE, RunOf(steps + [step]), n)
  {
    StepFits(steps, kinds, step);
    assert (steps + [step])[..|steps|] == steps;
    LimitGoesOn(RunOf(steps), WorldAfter(steps + [step]), n);
  }

  lemma {:induction false} LimitSmart(steps: seq<Step>, kinds: seq<Kind>, step: Step, n: nat, before: Source)
    requires |steps| < 9 && Reached(steps, kinds) && Saved(WorldAfter(steps), before) && Continues(step, n, before)
    requires HasFullLike(NamesOf(steps, kinds)) && (n > 0 ==> SmartRun(NamesOf(steps, kinds)) < n)
    requires LimitedRun(SITE, RunOf(steps), n)
    ensures LimitedRun(SITE, RunOf(steps + [step]), n)
  {
    SmartMakes(WorldAfter(steps), n, step.source, before);
    LimitNext(steps, kinds, step, n);
  }

  lemma LimitFirst(step: Step, n: nat)
    requires StartsChain(step) && step.cfg.maxSmart == n
    ensures LimitedRun(SITE, RunOf([step]), n)
  {
    ReachStart();
    FirstMakes(step.cfg, step.source);
    LimitNext([], [], step, n);
    assert [] + [step] == [step];
  }

  lemma LimitTwo(first: Step, second: Step, n: nat)
    requires StartsChain(first) && first.comment == "" && first.cfg.maxSmart == n && Continues(second, n, first.source)
    ensures LimitedRun(SITE, RunOf([first] + [second]), n)
  {
    LimitFirst(first, n);
    ReachFirst(first);
    FirstName(first);
    LimitSmart([first], [FirstKind(first)], second, n, first.source);
  }

  /** The name of the misread archive starts the count anew. */
  lemma {:induction false} MisreadCount(steps: seq<Step>, kinds: seq<Kind>)
    requires |steps| == |kinds| == 2 && kinds[1] == Smart && steps[1].comment == "Full"
    ensures HasFullLike(NamesOf(steps, kinds)) && SmartRun(NamesOf(steps, kinds)) == 0
  {
    MisreadReads(2);
    assert ReadsFullLike(NamesOf(steps, kinds)[1]);
  }

  lemma LimitThree(first: Step, second: Step, third: Step)
    requires StartsChain(first) && first.comment == "" && first.cfg.maxSmart == 1
    requires Continues(second, 1, first.source) && second.comment == "Full" && Continues(third, 1, second.source)
    ensures LimitedRun(SITE, RunOf([first] + [second] + [third]), 1)
  {
    LimitTwo(first, second, 1);
    TwoSteps(first, second, 1);
    MisreadCount([first] + [second], [FirstKind(first)] + [Smart]);
    LimitSmart([first] + [second], [FirstKind(first)] + [Smart], third, 1, second.source);
  }

  lemma {:induction false} DepthOfThree(names: seq<ArchiveName>)
    requires |names| == 3 && IsFullLike(names[0].KindOf()) && IsSmart(names[1].KindOf()) && IsSmart(names[2].KindOf())
    ensures SmartDepth(names) == 2
  {
    assert |names[..2]| == 2 && names[..2][..1] == names[..1] && |names[..1]| == 1;
    assert SmartDepth(names[..1]) == 0;
    assert SmartDepth(names[..2]) == 1;
  }

  lemma {:induction false} NamedDepth(steps: seq<Step>, kinds: seq<Kind>)
    requires |steps| == |kinds| == 3 && IsFullLike(kinds[0]) && kinds[1] == Smart && kinds[2] == Smart
    ensures SmartDepth(NamesOf(steps, kinds)) == 2
  {
    var names := NamesOf(steps, kinds);
    assert names[0].KindOf() == kinds[0] && names[1].KindOf() == kinds[1] && names[2].KindOf() == kinds[2];
    DepthOfThree(names);
  }

  lemma MisreadReached(first: Step, second: Step, third: Step)
    requires StartsChain(first) && first.comment == ""
    requires Continues(second, 1, first.source) && second.comment == "Full" && Continues(third, 1, second.source)
    ensures Reached([first] + [second] + [third], [FirstKind(first)] + [Smart] + [Smart])
  {
    MisreadCount([first] + [second], [FirstKind(first)] + [Smart]);
    ThreeAreReached(first, second, third, 1);
  }

  lemma MisreadDepth(first: Step, second: Step, third: Step)
    requires StartsChain(first) && first.comment == ""
    requires Continues(second, 1, first.source) && second.comment == "Full" && Continues(third, 1, second.source)
    ensures SmartDepth(ChainOf(SITE, WorldAfter([first] + [second] + [third]))) == 2
  {
    MisreadReached(first, second, third);
    NamedDepth([first] + [second] + [third], [FirstKind(first)] + [Smart] + [Smart]);
  }

  /** With the limit 1, a Smart backup with the comment "Full" is followed by a second Smart one. */
  lemma CommentLiftsLimit()
    ensures var steps := [ONE_LIMITED] + [TWO_NAMED_FULL] + [ONE_LIMITED];
      LimitedRun(SITE, RunOf(steps), 1) && SmartDepth(ChainOf(SITE, WorldAfter(steps))) == 2
  {
    SizesChange();
    LimitThree(ONE_LIMITED, TWO_NAMED_FULL, ONE_LIMITED);
    MisreadDepth(ONE_LIMITED, TWO_NAMED_FULL, ONE_LIMITED);
  }
}
