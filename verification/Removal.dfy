/** One world: its disk and the configuration's history, and what a successful removal does to both. */
module Removal {
  import opened Names
  import opened Ordering
  import opened Delta
  import opened Chain
  import opened Repair
  import opened History

  /** The world whose archives are kept: how history spells it, and the rule set of its backups. */
  datatype Site = Site(scope: Scope, worldPath: string, worldName: string, blacklisted: Path -> bool)
  {
    function Key(): string { scope.worldOf(worldPath, worldName) }

    predicate Owns(e: HistoryEntry)
    {
      e.configId == scope.configId && e.backupFile != NoArchive && scope.World(e) == Key()
    }
  }

  // An entry's type is read from its type field or from its file name.

  predicate EntryIsSmart(e: HistoryEntry) { IsSmart(e.backupType) || ReadsSmart(e.backupFile) }

  predicate EntryIsFullLike(e: HistoryEntry) { IsFullLike(e.backupType) || ReadsFullLike(e.backupFile) }

  datatype World = World(disk: Disk, history: seq<HistoryEntry>)

  function OfWorld(site: Site, entries: seq<HistoryEntry>): seq<HistoryEntry>
  {
    if entries == [] then []
    else
      var last := entries[|entries| - 1];
      OfWorld(site, entries[..|entries| - 1]) + if site.Owns(last) then [last] else []
  }

  // ---- std::stable_sort by timestamp ----

  ghost predicate TimeOrdered(entries: seq<HistoryEntry>)
  {
    forall i, j | 0 <= i < j < |entries| :: !Less(entries[j].timestamp, entries[i].timestamp)
  }

  function InsertByTime(sorted: seq<HistoryEntry>, e: HistoryEntry): seq<HistoryEntry>
  {
    if sorted == [] || !Less(e.timestamp, sorted[|sorted| - 1].timestamp) then sorted + [e]
    else InsertByTime(sorted[..|sorted| - 1], e) + [sorted[|sorted| - 1]]
  }

  function SortedByTime(entries: seq<HistoryEntry>): seq<HistoryEntry>
  {
    if entries == [] then [] else InsertByTime(SortedByTime(entries[..|entries| - 1]), entries[|entries| - 1])
  }

  lemma {:induction false} SortIsIdentity(entries: seq<HistoryEntry>)
    requires TimeOrdered(entries)
    ensures SortedByTime(entries) == entries
  {
    if entries != [] {
      SortIsIdentity(entries[..|entries| - 1]);
    }
  }

  function WorldHistory(site: Site, history: seq<HistoryEntry>): seq<HistoryEntry>
  {
    SortedByTime(OfWorld(site, history))
  }

  function FileNames(entries: seq<HistoryEntry>): (r: seq<ArchiveName>)
    ensures |r| == |entries|
  {
    seq(|entries|, i requires 0 <= i < |entries| => entries[i].backupFile)
  }

  // ---- the invariant ----

  ghost predicate StateOk(site: Site, d: Disk, chain: seq<ArchiveName>)
  {
    d.state.Some? ==>
      var s := d.state.value;
      && s.last != NoArchive
      && (forall p | p in s.files :: !site.blacklisted(p))
      && (s.last in d.archives ==>
            && chain != [] && s.last == chain[|chain| - 1]
            && Present(d, chain)
            && s.basedOn == d.records[s.last].basedOn
            && s.files.Keys == Replay(d, chain, |chain| - 1).Keys)
  }

  ghost predicate EntryOk(site: Site, e: HistoryEntry)
  {
    && e.worldPath == site.worldPath && e.worldName == site.worldName
    && e.backupType == e.backupFile.KindOf()
  }

  ghost predicate HistoryOk(site: Site, history: seq<HistoryEntry>)
  {
    && UniqueIdentities(site.scope, history)
    && TimeOrdered(OfWorld(site, history))
    && forall e | e in OfWorld(site, history) :: EntryOk(site, e)
  }

  /** The world's history lists its archives in chain order, every link is sound, and the saved
      state describes the newest archive unless that archive is gone. */
  ghost predicate Inv(site: Site, w: World)
  {
    var chain := FileNames(OfWorld(site, w.history));
    && HistoryOk(site, w.history)
    && Keyed(w.disk) && UniqueStems(InPlay(w.disk))
    && ChainOk(w.disk, chain)
    && StateOk(site, w.disk, chain)
  }

  // ---- history under a batch ----

  lemma {:induction false} OfWorldMembers(site: Site, entries: seq<HistoryEntry>, e: HistoryEntry)
    ensures e in OfWorld(site, entries) <==> e in entries && site.Owns(e)
  {
    if entries != [] {
      var n := |entries| - 1;
      OfWorldMembers(site, entries[..n], e);
      assert entries == entries[..n] + [entries[n]];
    }
  }

  lemma {:induction false} OfWorldIntended(site: Site, entries: seq<HistoryEntry>, changes: HistoryChanges)
    requires forall r | r in changes.renames :: r.backupFile != NoArchive && r.expected.backupFile != NoArchive
    ensures OfWorld(site, Intended(site.scope, entries, changes)) == Intended(site.scope, OfWorld(site, entries), changes)
  {
    if entries != [] {
      var n := |entries| - 1;
      var e := entries[n];
      OfWorldIntended(site, entries[..n], changes);
      var front := Intended(site.scope, entries[..n], changes);
      var mine := OfWorld(site, entries[..n]);
      RewriteOwned(site, changes.renames, e);
      if !NamedIn(site.scope, e, changes.deletions) {
        assert (front + [Rewrite(site.scope, changes.renames, e)])[..|front|] == front;
      }
      assert front + [] == front;
      if site.Owns(e) {
        assert (mine + [e])[..|mine|] == mine;
      }
      assert mine + [] == mine;
    }
  }

  lemma {:induction false} RewriteOwned(site: Site, renames: seq<HistoryRename>, e: HistoryEntry)
    requires forall r | r in renames :: r.backupFile != NoArchive && r.expected.backupFile != NoArchive
    ensures site.Owns(Rewrite(site.scope, renames, e)) <==> site.Owns(e)
  {
    if renames != [] {
      var last := renames[|renames| - 1];
      assert last in renames;
      if !Renames(site.scope, last, e) { RewriteOwned(site, renames[..|renames| - 1], e); }
    }
  }

  /** With a single deletion, at position t, the rest stays in order. */
  lemma {:induction false} IntendedAt(scope: Scope, entries: seq<HistoryEntry>, changes: HistoryChanges, t: nat)
    requires forall k | 0 <= k < |entries| :: NamedIn(scope, entries[k], changes.deletions) <==> k == t
    ensures var r := Intended(scope, entries, changes);
      && |r| == (if t < |entries| then |entries| - 1 else |entries|)
      && forall j | 0 <= j < |r| :: r[j] == Rewrite(scope, changes.renames, entries[OldIndex(t, j)])
  {
    if entries != [] {
      var n := |entries| - 1;
      IntendedAt(scope, entries[..n], changes, t);
    }
  }

  // ---- removing an archive that nothing builds on ----

  ghost predicate Droppable(chain: seq<ArchiveName>, t: nat)
  {
    t < |chain| && (t + 1 == |chain| || IsFullLike(chain[t + 1].KindOf()))
  }

  function DroppedDisk(d: Disk, n: ArchiveName): Disk
  {
    Disk(d.archives - {n}, d.records - {n}, d.state)
  }

  ghost function DroppedChain(chain: seq<ArchiveName>, t: nat): seq<ArchiveName>
    requires t < |chain|
  {
    chain[..t] + chain[t + 1..]
  }

  ghost predicate Dropping(d: Disk, chain: seq<ArchiveName>, t: nat, e: Disk, rest: seq<ArchiveName>)
  {
    && Droppable(chain, t) && |rest| == |chain| - 1
    && Links(d, chain) && Present(e, rest)
    && forall j | 0 <= j < |rest| ::
         && rest[j] == chain[OldIndex(t, j)]
         && e.archives[rest[j]] == d.archives[rest[j]]
         && e.records[rest[j]] == d.records[rest[j]]
  }

  lemma DroppedDiskDrops(d: Disk, chain: seq<ArchiveName>, t: nat)
    requires ChainOk(d, chain) && Droppable(chain, t)
    ensures Dropping(d, chain, t, DroppedDisk(d, chain[t]), DroppedChain(chain, t))
    ensures Distinct(DroppedChain(chain, t))
  {
    var rest := DroppedChain(chain, t);
    forall j | 0 <= j < |rest| ensures rest[j] == chain[OldIndex(t, j)] && rest[j] != chain[t] {}
    forall i, j | 0 <= i < j < |rest| ensures rest[i] != rest[j] {
      assert OldIndex(t, i) < OldIndex(t, j);
    }
  }

  lemma {:induction false} DroppedReplay(d: Disk, chain: seq<ArchiveName>, t: nat, e: Disk, rest: seq<ArchiveName>, j: nat)
    requires Dropping(d, chain, t, e, rest) && j < |rest|
    ensures Replay(e, rest, j) == Replay(d, chain, OldIndex(t, j))
  {
    var k := OldIndex(t, j);
    assert rest[j] == chain[k];
    assert Link(d, chain, k);
    if IsSmart(chain[k].KindOf()) { DroppedReplay(d, chain, t, e, rest, j - 1); }
    SameStep(d, chain, k, e, rest, j);
  }

  lemma DroppedLink(d: Disk, chain: seq<ArchiveName>, t: nat, e: Disk, rest: seq<ArchiveName>, j: nat)
    requires Dropping(d, chain, t, e, rest) && j < |rest|
    ensures Link(e, rest, j)
  {
    var k := OldIndex(t, j);
    assert rest[j] == chain[k];
    assert Link(d, chain, k);
    if IsSmart(chain[k].KindOf()) {
      assert rest[j - 1] == chain[k - 1];
      DroppedReplay(d, chain, t, e, rest, j - 1);
    }
  }

  lemma DropKeepsChain(d: Disk, chain: seq<ArchiveName>, t: nat)
    requires ChainOk(d, chain) && Droppable(chain, t)
    ensures ChainOk(DroppedDisk(d, chain[t]), DroppedChain(chain, t))
    ensures |DroppedChain(chain, t)| == |chain| - 1
    ensures forall j | 0 <= j < |chain| - 1 ::
              Replay(DroppedDisk(d, chain[t]), DroppedChain(chain, t), j) == Replay(d, chain, OldIndex(t, j))
  {
    DroppedDiskDrops(d, chain, t);
    DroppingKeepsChain(d, chain, t, DroppedDisk(d, chain[t]), DroppedChain(chain, t));
  }

  lemma DroppingKeepsChain(d: Disk, chain: seq<ArchiveName>, t: nat, e: Disk, rest: seq<ArchiveName>)
    requires Dropping(d, chain, t, e, rest)
    ensures Links(e, rest)
    ensures forall j | 0 <= j < |rest| :: Replay(e, rest, j) == Replay(d, chain, OldIndex(t, j))
  {
    forall j | 0 <= j < |rest|
      ensures Link(e, rest, j)
      ensures Replay(e, rest, j) == Replay(d, chain, OldIndex(t, j))
    {
      DroppedReplay(d, chain, t, e, rest, j);
      DroppedLink(d, chain, t, e, rest, j);
    }
  }

  lemma DropKeepsState(site: Site, d: Disk, chain: seq<ArchiveName>, t: nat)
    requires ChainOk(d, chain) && Droppable(chain, t) && StateOk(site, d, chain)
    ensures StateOk(site, DroppedDisk(d, chain[t]), DroppedChain(chain, t))
  {
    DropKeepsChain(d, chain, t);
    if d.state.Some? && d.state.value.last in DroppedDisk(d, chain[t]).archives {
      var rest := DroppedChain(chain, t);
      assert t < |chain| - 1;
      assert rest[|rest| - 1] == chain[|chain| - 1];
      assert OldIndex(t, |rest| - 1) == |chain| - 1;
    }
  }

  // ---- state and names after a merge ----

  lemma MergeKeepsState(site: Site, d: Disk, chain: seq<ArchiveName>, t: nat, now: string)
    requires Mergeable(d, chain, t) && StateOk(site, d, chain)
    ensures StateOk(site, MergedDisk(d, chain, t, now), MergedChain(chain, t))
  {
    MergedStateOk(site, d, chain, t, now, MergedDisk(d, chain, t, now), MergedChain(chain, t));
  }

  lemma MergedStateOk(site: Site, d: Disk, chain: seq<ArchiveName>, t: nat, now: string, e: Disk, merged: seq<ArchiveName>)
    requires Mergeable(d, chain, t) && StateOk(site, d, chain)
    requires e == MergedDisk(d, chain, t, now) && merged == MergedChain(chain, t)
    ensures StateOk(site, e, merged)
  {
    if d.state.Some? {
      if d.state.value.last in d.archives {
        MergeKeepsLiveState(d, chain, t, now);
        MergeKeepsLastReplay(d, chain, t, now, e, merged);
      } else {
        MergeKeepsGoneState(d, chain, t, now);
      }
    }
  }

  lemma MergeKeepsLastReplay(d: Disk, chain: seq<ArchiveName>, t: nat, now: string, e: Disk, merged: seq<ArchiveName>)
    requires Mergeable(d, chain, t) && e == MergedDisk(d, chain, t, now) && merged == MergedChain(chain, t)
    ensures Present(e, merged) && 0 < |merged| && Replay(e, merged, |merged| - 1) == Replay(d, chain, |chain| - 1)
  {
    MergeIsMerging(d, chain, t, now);
    MergingKeepsLastReplay(d, chain, t, MergedRecord(d, chain, t, now), e, merged);
  }

  lemma MergingKeepsLastReplay(d: Disk, chain: seq<ArchiveName>, t: nat, r: ChangeRecord, e: Disk, merged: seq<ArchiveName>)
    requires Merging(d, chain, t, r, e, merged) && MergeOf(d, chain, t, r) && IsSmart(chain[t + 1].KindOf())
    ensures 0 < |merged| && Replay(e, merged, |merged| - 1) == Replay(d, chain, |chain| - 1)
  {
    LastIndex(t, |chain|);
    MergedReplay(d, chain, t, r, e, merged, |merged| - 1);
  }

  lemma LastIndex(t: nat, n: nat)
    requires t + 1 < n
    ensures OldIndex(t, n - 2) == n - 1
  {}

  /** A state that names an archive already gone keeps naming it, and it stays gone. */
  lemma MergeKeepsGoneState(d: Disk, chain: seq<ArchiveName>, t: nat, now: string)
    requires Mergeable(d, chain, t) && d.state.Some? && d.state.value.last !in d.archives
    ensures var e := MergedDisk(d, chain, t, now);
      && e.state.Some? && e.state.value.last == d.state.value.last && e.state.value.last !in e.archives
      && e.state.value.files == d.state.value.files
  {
    var s := d.state.value;
    assert chain[t] in InPlay(d) && chain[t + 1] in InPlay(d) && s.last in InPlay(d);
    assert Link(d, chain, t) && Link(d, chain, t + 1);
    ReferencesAreExact(d, s.last, chain[t]);
    ReferencesAreExact(d, s.last, chain[t + 1]);
    FinalIsFresh(d, chain, t, s.last);
  }

  /** The newest archive is the one merged into. */
  lemma MergeTakesLast(d: Disk, chain: seq<ArchiveName>, t: nat, now: string)
    requires Mergeable(d, chain, t) && |chain| == t + 2
    requires d.state.Some? && d.state.value.last == chain[t + 1] && d.state.value.basedOn == d.records[chain[t + 1]].basedOn
    ensures var e := MergedDisk(d, chain, t, now);
      && e.state.Some? && e.state.value.last == MergedChain(chain, t)[t] && e.state.value.last in e.records
      && e.state.value.basedOn == e.records[e.state.value.last].basedOn
  {
    MergedShape(chain, t);
    MergedDiskMerges(d, chain, t, now);
    MergeRenames(d, chain, t);
    MergedRecordIsMerge(d, chain, t, now);
    MergedRecordBase(d, chain, t, MergedRecord(d, chain, t, now));
  }

  /** The newest archive comes later than the one merged into. */
  lemma MergeSparesLast(d: Disk, chain: seq<ArchiveName>, t: nat, now: string, e: Disk, merged: seq<ArchiveName>)
    requires Mergeable(d, chain, t) && |chain| > t + 2
    requires e == MergedDisk(d, chain, t, now) && merged == MergedChain(chain, t)
    requires d.state.Some? && d.state.value.last == chain[|chain| - 1]
    requires d.state.value.basedOn == d.records[chain[|chain| - 1]].basedOn
    ensures |merged| == |chain| - 1
    ensures e.state.Some? && e.state.value.last == merged[|merged| - 1] && e.state.value.last in e.records
    ensures e.state.value.basedOn == e.records[e.state.value.last].basedOn
  {
    MergedLast(chain, t);
    LastSurvives(d, chain, t, now);
    LastIsOther(d, chain, t);
    SparedState(d, chain, t, now);
    SparedBase(d, chain, MergeNames(chain, t), e);
  }

  lemma MergedLast(chain: seq<ArchiveName>, t: nat)
    requires |chain| > t + 2
    ensures |MergedChain(chain, t)| == |chain| - 1 && MergedChain(chain, t)[|chain| - 2] == chain[|chain| - 1]
  {
    MergedShape(chain, t);
    assert OldIndex(t, |chain| - 2) == |chain| - 1;
  }

  lemma SparedBase(d: Disk, chain: seq<ArchiveName>, names: Renaming, e: Disk)
    requires chain != [] && Present(d, chain) && Survives(d, chain[|chain| - 1], names, e)
    requires d.state.Some? && e.state.Some? && d.state.value.basedOn == d.records[chain[|chain| - 1]].basedOn
    requires e.state.value.basedOn == names.Apply(d.state.value.basedOn)
    ensures chain[|chain| - 1] in e.records && e.state.value.basedOn == e.records[chain[|chain| - 1]].basedOn
  {}

  lemma LastIsOther(d: Disk, chain: seq<ArchiveName>, t: nat)
    requires Mergeable(d, chain, t) && |chain| > t + 2
    ensures !SameReference(chain[|chain| - 1], chain[t]) && !SameReference(chain[|chain| - 1], chain[t + 1])
  {
    var last := |chain| - 1;
    assert chain[last] in InPlay(d) && chain[t + 1] in InPlay(d) && chain[t] in InPlay(d);
    assert Link(d, chain, t) && Link(d, chain, t + 1);
    ReferencesAreExact(d, chain[last], chain[t]);
    ReferencesAreExact(d, chain[last], chain[t + 1]);
  }

  lemma LastSurvives(d: Disk, chain: seq<ArchiveName>, t: nat, now: string)
    requires Mergeable(d, chain, t) && |chain| > t + 2
    ensures Survives(d, chain[|chain| - 1], MergeNames(chain, t), MergedDisk(d, chain, t, now))
  {
    var last := |chain| - 1;
    MergedShape(chain, t);
    MergedDiskMerges(d, chain, t, now);
    assert OldIndex(t, last - 1) == last;
  }

  lemma SparedState(d: Disk, chain: seq<ArchiveName>, t: nat, now: string)
    requires Mergeable(d, chain, t) && d.state.Some?
    requires !SameReference(d.state.value.last, chain[t]) && !SameReference(d.state.value.last, chain[t + 1])
    ensures var e := MergedDisk(d, chain, t, now);
      && e.state.Some? && e.state.value.last == d.state.value.last
      && e.state.value.basedOn == MergeNames(chain, t).Apply(d.state.value.basedOn)
  {
  }

  /** When the newest archive is present, the rewritten state names it and the base its record has. */
  lemma MergeKeepsLiveState(d: Disk, chain: seq<ArchiveName>, t: nat, now: string)
    requires Mergeable(d, chain, t) && d.state.Some? && d.state.value.last == chain[|chain| - 1]
    requires d.state.value.basedOn == d.records[chain[|chain| - 1]].basedOn
    ensures var e, merged := MergedDisk(d, chain, t, now), MergedChain(chain, t);
      && |merged| == |chain| - 1
      && e.state.Some? && e.state.value.files == d.state.value.files
      && e.state.value.last == merged[|merged| - 1] && e.state.value.last in e.records
      && e.state.value.basedOn == e.records[e.state.value.last].basedOn
  {
    MergedShape(chain, t);
    var last := |chain| - 1;
    assert chain[last] in InPlay(d) && chain[t + 1] in InPlay(d) && chain[t] in InPlay(d);
    ReferencesAreExact(d, chain[last], chain[t]);
    ReferencesAreExact(d, chain[last], chain[t + 1]);
    if last == t + 1 { MergeTakesLast(d, chain, t, now); } else { MergeSparesLast(d, chain, t, now, MergedDisk(d, chain, t, now), MergedChain(chain, t)); }
  }

  lemma MergedStateInPlay(d: Disk, chain: seq<ArchiveName>, t: nat, now: string)
    requires Mergeable(d, chain, t) && d.state.Some?
    ensures var s := MergedDisk(d, chain, t, now).state.value;
            (s.last == MergedName(chain, t) || (s.last in InPlay(d) && s.last != chain[t + 1]))
            && (s.basedOn == MergedName(chain, t) || (s.basedOn in InPlay(d) && s.basedOn != chain[t + 1]))
  {
    assert chain[t] in InPlay(d) && chain[t + 1] in InPlay(d);
    RenamingIsExact(d, chain, t, d.state.value.last);
    RenamingIsExact(d, chain, t, d.state.value.basedOn);
    assert Link(d, chain, t + 1);
    ReferencesAreExact(d, d.state.value.last, chain[t + 1]);
  }

  lemma MergedFilesInPlay(d: Disk, chain: seq<ArchiveName>, t: nat, now: string, n: ArchiveName)
    requires Mergeable(d, chain, t)
    requires var e := MergedDisk(d, chain, t, now); n in e.archives || n in e.records
    ensures n == MergedName(chain, t) || (n in InPlay(d) && n != chain[t + 1])
  {
    assert Link(d, chain, t) && Link(d, chain, t + 1);
  }

  lemma MergedNamesInPlay(d: Disk, chain: seq<ArchiveName>, t: nat, now: string, n: ArchiveName)
    requires Mergeable(d, chain, t)
    requires n in InPlay(MergedDisk(d, chain, t, now))
    ensures n == MergedName(chain, t) || (n in InPlay(d) && n != chain[t + 1])
  {
    var e := MergedDisk(d, chain, t, now);
    if n in e.archives || n in e.records {
      MergedFilesInPlay(d, chain, t, now, n);
    } else {
      MergedStateInPlay(d, chain, t, now);
    }
  }

  lemma MergeKeepsNames(d: Disk, chain: seq<ArchiveName>, t: nat, now: string)
    requires Mergeable(d, chain, t)
    ensures Keyed(MergedDisk(d, chain, t, now))
    ensures UniqueStems(InPlay(MergedDisk(d, chain, t, now)))
  {
    var e := MergedDisk(d, chain, t, now);
    var final := MergedName(chain, t);
    assert chain[t + 1] in InPlay(d);
    assert Link(d, chain, t + 1);
    MergedRecordIsMerge(d, chain, t, now);
    forall a, b | a in InPlay(e) && b in InPlay(e) && a.Named? && b.Named? && Lower(a.stem) == Lower(b.stem)
      ensures a == b
    {
      MergedNamesInPlay(d, chain, t, now, a);
      MergedNamesInPlay(d, chain, t, now, b);
    }
  }

  // ---- the whole effect of a successful removal ----

  ghost function ChainOf(site: Site, w: World): seq<ArchiveName>
  {
    FileNames(OfWorld(site, w.history))
  }

  /** What a removal that merges asks of the history. */
  function MergeChanges(entry: HistoryEntry, next: HistoryEntry): HistoryChanges
  {
    var checkpoint := EntryIsFullLike(entry);
    HistoryChanges([entry], [HistoryRename(next, FinalName(checkpoint, next.backupFile), FinalKind(checkpoint, next.backupType))])
  }

  function Batch(mine: seq<HistoryEntry>, t: nat): HistoryChanges
    requires t < |mine|
  {
    if t + 1 < |mine| && !EntryIsFullLike(mine[t + 1]) then MergeChanges(mine[t], mine[t + 1])
    else HistoryChanges([mine[t]], [])
  }

  /** The program merges into a successor unless its name reads full-like. */
  ghost predicate MergesNext(chain: seq<ArchiveName>, t: nat)
  {
    t + 1 < |chain| && !ReadsFullLike(chain[t + 1])
  }

  /** The successor is Smart, but the user's comment or the folder puts a full-like marker into its name. */
  ghost predicate Misleads(chain: seq<ArchiveName>, t: nat)
  {
    t + 1 < |chain| && IsSmart(chain[t + 1].KindOf()) && ReadsFullLike(chain[t + 1])
  }

  /** What the program requires of the t-th archive before it removes it. */
  ghost predicate Removable(site: Site, w: World, t: nat)
  {
    var mine := OfWorld(site, w.history);
    var chain := FileNames(mine);
    && t < |mine|
    && !mine[t].isImportant
    && (MergesNext(chain, t) ==>
          && !mine[t + 1].isImportant
          && chain[t] in w.disk.records
          && (ReadsFullLike(chain[t]) ==> w.disk.records[chain[t]].fullList != []))
  }

  /** For the world's own entries the file name decides: the type field adds nothing to it. */
  lemma EntryReads(site: Site, h: seq<HistoryEntry>, i: nat)
    requires HistoryOk(site, h) && i < |OfWorld(site, h)|
    ensures var e := OfWorld(site, h)[i];
      && (EntryIsFullLike(e) <==> ReadsFullLike(e.backupFile))
      && (EntryIsSmart(e) <==> ReadsSmart(e.backupFile))
      && e.backupType == e.backupFile.KindOf() && FileNames(OfWorld(site, h))[i] == e.backupFile
  {
    assert EntryOk(site, OfWorld(site, h)[i]);
  }

  lemma NextMerges(site: Site, h: seq<HistoryEntry>, t: nat)
    requires HistoryOk(site, h) && t < |OfWorld(site, h)|
    ensures var mine := OfWorld(site, h);
      && (MergesNext(FileNames(mine), t) <==> t + 1 < |mine| && !EntryIsFullLike(mine[t + 1]))
      && Batch(mine, t) == if MergesNext(FileNames(mine), t) then MergeChanges(mine[t], mine[t + 1])
                           else HistoryChanges([mine[t]], [])
  {
    if t + 1 < |OfWorld(site, h)| { EntryReads(site, h, t + 1); }
  }

  lemma RemovableCases(site: Site, w: World, t: nat)
    requires Inv(site, w) && Removable(site, w, t)
    ensures var chain := ChainOf(site, w);
      if MergesNext(chain, t) then Mergeable(w.disk, chain, t) && (ReadsFullLike(chain[t]) <==> IsFullLike(chain[t].KindOf()))
      else Misleads(chain, t) || Droppable(chain, t)
  {
    var chain := ChainOf(site, w);
    if t + 1 < |chain| { assert Link(w.disk, chain, t + 1); }
    if MergesNext(chain, t) { ReadsAsItIs(w.disk, chain, t); }
  }

  ghost function AfterRemove(site: Site, w: World, t: nat, now: string): World
    requires Inv(site, w) && Removable(site, w, t)
  {
    RemovableCases(site, w, t);
    var chain := ChainOf(site, w);
    World(
      if MergesNext(chain, t) then MergedDisk(w.disk, chain, t, now) else DroppedDisk(w.disk, chain[t]),
      Intended(site.scope, w.history, Batch(OfWorld(site, w.history), t)))
  }

  // ---- history after the removal ----

  lemma MemberLocated(scope: Scope, h: seq<HistoryEntry>, e: HistoryEntry)
    requires UniqueIdentities(scope, h) && e in h && e.configId == scope.configId
    ensures Located(scope, h, e).Some? && h[Located(scope, h, e).value] == e
  {
    var i :| 0 <= i < |h| && h[i] == e;
    forall j | 0 <= j < |h| && j != i ensures !scope.IsSame(h[j], e) {
      assert !scope.IsSame(h[if i < j then i else j], h[if i < j then j else i]);
    }
    assert LocatedAt(scope, h, e, i);
  }

  /** Facts about one world's entries that make its removal batch harmless. */
  ghost predicate BatchFits(site: Site, h: seq<HistoryEntry>, t: nat)
  {
    var mine := OfWorld(site, h);
    && HistoryOk(site, h) && t < |mine|
    && Distinct(FileNames(mine))
    && (forall i | 0 <= i < |mine| :: mine[i].backupFile.Named?)
    && (MergesNext(FileNames(mine), t) ==>
          && (EntryIsFullLike(mine[t]) <==> IsFullLike(mine[t].backupFile.KindOf()))
          && IsSmart(mine[t + 1].backupFile.KindOf())
          && forall i | 0 <= i < |mine| && i != t + 1 :: mine[i].backupFile != MergedName(FileNames(mine), t))
  }

  lemma BatchMembers(site: Site, h: seq<HistoryEntry>, t: nat, i: nat)
    requires BatchFits(site, h, t) && i < |OfWorld(site, h)|
    ensures var mine := OfWorld(site, h); var c := Batch(mine, t);
      && mine[i] in h && site.Owns(mine[i])
      && (NamedIn(site.scope, mine[i], c.deletions) <==> i == t)
      && (forall r | r in c.renames :: Renames(site.scope, r, mine[i]) <==> i == t + 1)
  {
    var mine := OfWorld(site, h);
    OfWorldMembers(site, h, mine[i]);
    OfWorldMembers(site, h, mine[t]);
    assert FileNames(mine)[i] == mine[i].backupFile && FileNames(mine)[t] == mine[t].backupFile;
    assert mine[t] in Batch(mine, t).deletions;
    if t + 1 < |mine| {
      OfWorldMembers(site, h, mine[t + 1]);
      assert FileNames(mine)[t + 1] == mine[t + 1].backupFile;
    }
  }

  /** Whoever shares an identity with one of the world's archives belongs to the world. */
  lemma SameIsMine(site: Site, h: seq<HistoryEntry>, e: HistoryEntry, like: HistoryEntry)
    requires e in h && site.Owns(like) && site.scope.IsSame(e, like)
    ensures exists i :: 0 <= i < |OfWorld(site, h)| && OfWorld(site, h)[i] == e
  {
    OfWorldMembers(site, h, e);
  }

  lemma BatchIsAccepted(site: Site, h: seq<HistoryEntry>, t: nat)
    requires BatchFits(site, h, t) && !OfWorld(site, h)[t].isImportant
    ensures var c := Batch(OfWorld(site, h), t);
      && Accepts(site.scope, h, c) && WellFormed(site.scope, c) && !HiddenCollision(site.scope, h, c)
  {
    var mine := OfWorld(site, h);
    var c := Batch(mine, t);
    BatchMembers(site, h, t, t);
    MemberLocated(site.scope, h, mine[t]);
    assert Deletable(site.scope, h, mine[t]);
    if t + 1 < |mine| {
      BatchMembers(site, h, t, t + 1);
      MemberLocated(site.scope, h, mine[t + 1]);
    }
    forall r, e | r in c.renames && e in h && r.Moves() ensures !site.scope.IsSame(e, r.Collision()) {
      if site.scope.IsSame(e, r.Collision()) {
        SameIsMine(site, h, e, r.Collision());
      }
    }
    forall r | r in c.renames ensures Renamable(site.scope, h, r) {
      if r.Moves() {
        forall e | e in h ensures !site.scope.IsSame(e, r.Collision()) {}
        NotLocated(site.scope, h, r.Collision());
      }
    }
  }

  lemma NotLocated(scope: Scope, h: seq<HistoryEntry>, expected: HistoryEntry)
    requires forall e | e in h :: !scope.IsSame(e, expected)
    ensures Located(scope, h, expected).None?
  {
    assert forall i | 0 <= i < |h| :: h[i] in h;
  }

  lemma BatchResult(site: Site, h: seq<HistoryEntry>, t: nat)
    requires BatchFits(site, h, t) && !OfWorld(site, h)[t].isImportant
    ensures var mine := OfWorld(site, h); var c := Batch(mine, t); var next := Intended(site.scope, h, c);
      && UniqueIdentities(site.scope, next)
      && next == Undeleted(site.scope, RenamedInPlace(site.scope, h, c.renames), c.deletions)
      && |OfWorld(site, next)| == |mine| - 1
      && forall j | 0 <= j < |mine| - 1 ::
           OfWorld(site, next)[j] == Rewrite(site.scope, c.renames, mine[OldIndex(t, j)])
  {
    var mine := OfWorld(site, h);
    var c := Batch(mine, t);
    BatchIsAccepted(site, h, t);
    AcceptedBatchIsExact(site.scope, h, c);
    OfWorldIntended(site, h, c);
    forall k | 0 <= k < |mine| ensures NamedIn(site.scope, mine[k], c.deletions) <==> k == t {
      BatchMembers(site, h, t, k);
    }
    IntendedAt(site.scope, mine, c, t);
  }

  lemma BatchEntry(site: Site, h: seq<HistoryEntry>, t: nat, i: nat)
    requires BatchFits(site, h, t) && i < |OfWorld(site, h)|
    ensures var mine := OfWorld(site, h); var w := Rewrite(site.scope, Batch(mine, t).renames, mine[i]);
      && w.timestamp == mine[i].timestamp
      && EntryOk(site, w)
      && w.backupFile == if i == t + 1 && MergesNext(FileNames(mine), t)
                         then MergedName(FileNames(mine), t) else mine[i].backupFile
  {
    var mine := OfWorld(site, h);
    BatchMembers(site, h, t, i);
    assert EntryOk(site, mine[i]);
    if Batch(mine, t).renames != [] {
      var r := Batch(mine, t).renames[0];
      assert r in Batch(mine, t).renames;
      assert FileNames(mine)[t + 1] == mine[t + 1].backupFile;
    }
  }

  lemma BatchKeepsEntries(site: Site, h: seq<HistoryEntry>, t: nat, j: nat)
    requires BatchFits(site, h, t) && !OfWorld(site, h)[t].isImportant && j < |OfWorld(site, h)| - 1
    ensures var mine := OfWorld(site, h); var rest := OfWorld(site, Intended(site.scope, h, Batch(mine, t)));
      && |rest| == |mine| - 1
      && rest[j].timestamp == mine[OldIndex(t, j)].timestamp && EntryOk(site, rest[j])
      && rest[j].backupFile == if j == t && MergesNext(FileNames(mine), t)
                               then MergedName(FileNames(mine), t)
                               else mine[OldIndex(t, j)].backupFile
  {
    BatchResult(site, h, t);
    BatchEntry(site, h, t, OldIndex(t, j));
  }

  lemma BatchKeepsHistory(site: Site, h: seq<HistoryEntry>, t: nat)
    requires BatchFits(site, h, t) && !OfWorld(site, h)[t].isImportant
    ensures HistoryOk(site, Intended(site.scope, h, Batch(OfWorld(site, h), t)))
  {
    var mine := OfWorld(site, h);
    var rest := OfWorld(site, Intended(site.scope, h, Batch(mine, t)));
    BatchResult(site, h, t);
    forall i | 0 <= i < |rest| ensures rest[i].timestamp == mine[OldIndex(t, i)].timestamp && EntryOk(site, rest[i]) {
      BatchKeepsEntries(site, h, t, i);
    }
    forall i, j | 0 <= i < j < |rest| ensures !Less(rest[j].timestamp, rest[i].timestamp) {
      assert OldIndex(t, i) < OldIndex(t, j);
    }
  }

  lemma BatchKeepsName(site: Site, h: seq<HistoryEntry>, t: nat, j: nat)
    requires BatchFits(site, h, t) && !OfWorld(site, h)[t].isImportant && j < |OfWorld(site, h)| - 1
    ensures var chain := FileNames(OfWorld(site, h));
            var rest := FileNames(OfWorld(site, Intended(site.scope, h, Batch(OfWorld(site, h), t))));
            |rest| == |chain| - 1
            && rest[j] == if j == t && MergesNext(chain, t) then MergedName(chain, t) else chain[OldIndex(t, j)]
  {
    BatchKeepsEntries(site, h, t, j);
  }

  lemma BatchKeepsChain(site: Site, h: seq<HistoryEntry>, t: nat)
    requires BatchFits(site, h, t) && !OfWorld(site, h)[t].isImportant
    ensures var chain := FileNames(OfWorld(site, h));
      FileNames(OfWorld(site, Intended(site.scope, h, Batch(OfWorld(site, h), t))))
        == if MergesNext(chain, t) then MergedChain(chain, t) else DroppedChain(chain, t)
  {
    var mine := OfWorld(site, h);
    var chain := FileNames(mine);
    var rest := FileNames(OfWorld(site, Intended(site.scope, h, Batch(mine, t))));
    BatchResult(site, h, t);
    forall j | 0 <= j < |rest|
      ensures rest[j] == if j == t && MergesNext(chain, t) then MergedName(chain, t) else chain[OldIndex(t, j)]
    {
      BatchKeepsName(site, h, t, j);
    }
    ChainFromNames(rest, chain, t);
  }

  lemma ChainFromNames(rest: seq<ArchiveName>, chain: seq<ArchiveName>, t: nat)
    requires t < |chain| && |rest| == |chain| - 1
    requires forall j | 0 <= j < |rest| ::
               rest[j] == if j == t && MergesNext(chain, t) then MergedName(chain, t) else chain[OldIndex(t, j)]
    ensures rest == if MergesNext(chain, t) then MergedChain(chain, t) else DroppedChain(chain, t)
  {
    if MergesNext(chain, t) { MergedShape(chain, t); }
  }

  lemma RemovalBatchFits(site: Site, w: World, t: nat)
    requires Inv(site, w) && Removable(site, w, t)
    ensures BatchFits(site, w.history, t)
  {
    var mine := OfWorld(site, w.history);
    var chain := FileNames(mine);
    RemovableCases(site, w, t);
    forall i | 0 <= i < |mine| ensures mine[i].backupFile.Named? {
      assert Link(w.disk, chain, i);
    }
    if MergesNext(chain, t) {
      OfWorldMembers(site, w.history, mine[t]);
      assert EntryOk(site, mine[t]);
      forall i | 0 <= i < |mine| && i != t + 1 ensures mine[i].backupFile != MergedName(chain, t) {
        assert chain[i] in InPlay(w.disk) && chain[i] != chain[t + 1];
        FinalIsFresh(w.disk, chain, t, chain[i]);
      }
    }
  }

  lemma DropKeepsNames(d: Disk, n: ArchiveName)
    requires Keyed(d) && UniqueStems(InPlay(d))
    ensures Keyed(DroppedDisk(d, n)) && UniqueStems(InPlay(DroppedDisk(d, n)))
  {
    assert InPlay(DroppedDisk(d, n)) <= InPlay(d);
  }

  /** The archive after the dropped one still refers to it. */
  lemma MisledDropBreaks(d: Disk, chain: seq<ArchiveName>, t: nat)
    requires ChainOk(d, chain) && Misleads(chain, t)
    ensures !ChainOk(DroppedDisk(d, chain[t]), DroppedChain(chain, t))
  {
    var e, rest := DroppedDisk(d, chain[t]), DroppedChain(chain, t);
    assert Link(d, chain, t + 1);
    assert rest[t] == chain[t + 1];
    assert 0 < t ==> rest[t - 1] == chain[t - 1] && chain[t - 1] != chain[t];
    if Present(e, rest) { assert !Link(e, rest, t); }
  }

  /** A successful removal keeps the invariant exactly when the successor's name does not mislead;
      the remaining archives are in any case the old ones in order. */
  lemma RemoveKeepsInv(site: Site, w: World, t: nat, now: string)
    requires Inv(site, w) && Removable(site, w, t)
    ensures Inv(site, AfterRemove(site, w, t, now)) <==> !Misleads(ChainOf(site, w), t)
    ensures var chain := ChainOf(site, w);
      ChainOf(site, AfterRemove(site, w, t, now))
        == if MergesNext(chain, t) then MergedChain(chain, t) else DroppedChain(chain, t)
  {
    var chain := ChainOf(site, w);
    RemovableCases(site, w, t);
    RemovalBatchFits(site, w, t);
    BatchKeepsHistory(site, w.history, t);
    BatchKeepsChain(site, w.history, t);
    if MergesNext(chain, t) {
      MergeKeepsChain(w.disk, chain, t, now);
      MergeKeepsNames(w.disk, chain, t, now);
      MergeKeepsState(site, w.disk, chain, t, now);
    } else if Misleads(chain, t) {
      MisledDropBreaks(w.disk, chain, t);
    } else {
      DropKeepsChain(w.disk, chain, t);
      DropKeepsNames(w.disk, chain[t]);
      DropKeepsState(site, w.disk, chain, t);
    }
  }

  /** Every surviving archive replays to the same files as before the removal. */
  lemma RemoveKeepsReplay(site: Site, w: World, t: nat, now: string, j: nat)
    requires Inv(site, w) && Removable(site, w, t) && !Misleads(ChainOf(site, w), t)
    requires j < |ChainOf(site, w)| - 1
    ensures Inv(site, AfterRemove(site, w, t, now))
    ensures |ChainOf(site, AfterRemove(site, w, t, now))| == |ChainOf(site, w)| - 1
    ensures Replay(AfterRemove(site, w, t, now).disk, ChainOf(site, AfterRemove(site, w, t, now)), j)
         == Replay(w.disk, ChainOf(site, w), OldIndex(t, j))
  {
    RemoveKeepsInv(site, w, t, now);
    RemovableCases(site, w, t);
    var chain := ChainOf(site, w);
    if MergesNext(chain, t) {
      MergeReplays(w.disk, chain, t, now, j);
    } else {
      DroppedDiskDrops(w.disk, chain, t);
      DroppedReplay(w.disk, chain, t, DroppedDisk(w.disk, chain[t]), DroppedChain(chain, t), j);
    }
  }
}
