/** What a removal does to restores of the surviving archives, through the real restore planner. */
module Survival {
  import opened Names
  import opened Ordering
  import opened Delta
  import opened Chain
  import opened Repair
  import opened History
  import opened Removal

  /** Merging away a checkpoint leaves the new checkpoint with an empty file list. */
  ghost predicate EmptiesCheckpoint(d: Disk, chain: seq<ArchiveName>, t: nat)
    requires Mergeable(d, chain, t)
  {
    && IsFullLike(chain[t].KindOf())
    && After(d.records[chain[t + 1]].changes, Elems(d.records[chain[t]].fullList)) == {}
  }

  /** The k-th archive can no longer be restored after the t-th is merged away: it builds on the
      emptied checkpoint, or becomes that checkpoint under a name that still reads Smart. */
  ghost predicate Stranded(d: Disk, chain: seq<ArchiveName>, t: nat, k: nat)
    requires Mergeable(d, chain, t) && k < |chain|
  {
    && EmptiesCheckpoint(d, chain, t) && t < k && Root(d, chain, k) == t
    && (k == t + 1 ==> ReadsSmart(MergedName(chain, t)))
  }

  /** A restore is decided by the file list of the base that the archive's record names. */
  lemma RestoreByBase(d: Disk, chain: seq<ArchiveName>, i: nat)
    requires ChainOk(d, chain) && i < |chain|
    ensures d.records[chain[i]].basedOn in d.records
    ensures ManagedRestore(d, chain[i]) ==
      if ReadsSmart(chain[i]) && d.records[d.records[chain[i]].basedOn].fullList == [] then Err(PlanInvalid)
      else Ok(Replay(d, chain, i))
  {
    RestoreIsReplay(d, chain, i);
    BaseIsRoot(d, chain, i);
  }

  lemma BaseListOfSurvivor(d: Disk, chain: seq<ArchiveName>, t: nat, now: string, k: nat)
    requires Mergeable(d, chain, t) && k < |chain| && k != t && k != t + 1
    ensures var e := MergedDisk(d, chain, t, now);
      && chain[k] in e.records && e.records[chain[k]].basedOn in e.records
      && e.records[e.records[chain[k]].basedOn].fullList ==
           if Root(d, chain, k) == t then FullListAfter(d.records[chain[t]], d.records[chain[t + 1]])
           else d.records[chain[Root(d, chain, k)]].fullList
  {
    MergeIsMerging(d, chain, t, now);
    var e := MergedDisk(d, chain, t, now);
    var root := Root(d, chain, k);
    assert Survives(d, chain[k], MergeNames(chain, t), e);
    BaseIsRoot(d, chain, k);
    assert MergeNames(chain, t).Apply(chain[root]) == if root == t then MergedName(chain, t) else chain[root];
    assert Link(d, chain, root);
    if root != t { assert Survives(d, chain[root], MergeNames(chain, t), e); }
  }

  lemma BaseListOfMerged(d: Disk, chain: seq<ArchiveName>, t: nat, now: string)
    requires Mergeable(d, chain, t) && IsSmart(chain[t].KindOf())
    ensures var e := MergedDisk(d, chain, t, now); var n := chain[t + 1];
      && n in e.records && e.records[n].basedOn in e.records
      && d.records[n].basedOn in d.records
      && e.records[e.records[n].basedOn].fullList == d.records[d.records[n].basedOn].fullList
  {
    MergeIsMerging(d, chain, t, now);
    var e := MergedDisk(d, chain, t, now);
    var root := Root(d, chain, t + 1);
    assert Link(d, chain, t) && Link(d, chain, t + 1);
    BaseIsRoot(d, chain, t + 1);
    MergedRecordBase(d, chain, t, MergedRecord(d, chain, t, now));
    assert Link(d, chain, root);
    assert root < t && Survives(d, chain[root], MergeNames(chain, t), e);
  }

  /** After a merge, a restore is decided by the file list that the base of the survivor then has. */
  lemma MergedRestore(d: Disk, chain: seq<ArchiveName>, t: nat, now: string, j: nat)
    requires Mergeable(d, chain, t) && j < |chain| - 1
    ensures var e, merged, k := MergedDisk(d, chain, t, now), MergedChain(chain, t), OldIndex(t, j);
      && |merged| == |chain| - 1 && Links(d, chain)
      && merged[j] in e.records && e.records[merged[j]].basedOn in e.records
      && ManagedRestore(e, merged[j]) ==
           if ReadsSmart(merged[j]) && e.records[e.records[merged[j]].basedOn].fullList == [] then Err(PlanInvalid)
           else Ok(Replay(d, chain, k))
  {
    MergedShape(chain, t);
    MergeKeepsChain(d, chain, t, now);
    MergeReplays(d, chain, t, now, j);
    RestoreByBase(MergedDisk(d, chain, t, now), MergedChain(chain, t), j);
  }

  lemma MergedRestoreElsewhere(d: Disk, chain: seq<ArchiveName>, t: nat, now: string, j: nat)
    requires Mergeable(d, chain, t) && j < |chain| - 1 && j != t
    ensures |MergedChain(chain, t)| == |chain| - 1
    ensures ManagedRestore(MergedDisk(d, chain, t, now), MergedChain(chain, t)[j])
         == ManagedRestore(d, chain[OldIndex(t, j)])
       <==> !Stranded(d, chain, t, OldIndex(t, j))
  {
    var k := OldIndex(t, j);
    MergedRestore(d, chain, t, now, j);
    MergedShape(chain, t);
    BaseListOfSurvivor(d, chain, t, now, k);
    RestoreByBase(d, chain, k);
    BaseIsRoot(d, chain, k);
    ReadsAsItIs(d, chain, t);
    assert Link(d, chain, k);
  }

  lemma MergedIntoSmart(d: Disk, chain: seq<ArchiveName>, t: nat, now: string)
    requires Mergeable(d, chain, t) && IsSmart(chain[t].KindOf())
    ensures |MergedChain(chain, t)| == |chain| - 1
    ensures ManagedRestore(MergedDisk(d, chain, t, now), MergedChain(chain, t)[t]) == ManagedRestore(d, chain[t + 1])
  {
    MergedRestore(d, chain, t, now, t);
    MergedShape(chain, t);
    assert MergedChain(chain, t)[t] == chain[t + 1];
    RestoreByBase(d, chain, t + 1);
    BaseListOfMerged(d, chain, t, now);
  }

  lemma MergedIntoCheckpoint(d: Disk, chain: seq<ArchiveName>, t: nat, now: string)
    requires Mergeable(d, chain, t) && !IsSmart(chain[t].KindOf())
    ensures |MergedChain(chain, t)| == |chain| - 1
    ensures ManagedRestore(MergedDisk(d, chain, t, now), MergedChain(chain, t)[t]) == ManagedRestore(d, chain[t + 1])
       <==> !Stranded(d, chain, t, t + 1)
  {
    MergedRestore(d, chain, t, now, t);
    MergedShape(chain, t);
    RestoreByBase(d, chain, t + 1);
    BaseIsRoot(d, chain, t + 1);
    BaseListOfCheckpoint(d, chain, t, now);
  }

  lemma BaseListOfCheckpoint(d: Disk, chain: seq<ArchiveName>, t: nat, now: string)
    requires Mergeable(d, chain, t) && !IsSmart(chain[t].KindOf())
    ensures var e, n := MergedDisk(d, chain, t, now), MergedName(chain, t);
      && n in e.records && e.records[n].basedOn == n
      && e.records[n].fullList == FullListAfter(d.records[chain[t]], d.records[chain[t + 1]])
    ensures IsFullLike(chain[t].KindOf()) && Root(d, chain, t + 1) == t && d.records[chain[t]].fullList != []
  {
    MergeIsMerging(d, chain, t, now);
    ReadsAsItIs(d, chain, t);
    assert Link(d, chain, t) && Link(d, chain, t + 1);
  }

  /** Every surviving archive restores to exactly what it did before a merge, unless it is stranded:
      the merged checkpoint lists no file at all and the archive is restored through its plan. */
  lemma MergeKeepsRestore(d: Disk, chain: seq<ArchiveName>, t: nat, now: string, j: nat)
    requires Mergeable(d, chain, t) && j < |chain| - 1
    ensures |MergedChain(chain, t)| == |chain| - 1
    ensures ManagedRestore(MergedDisk(d, chain, t, now), MergedChain(chain, t)[j])
         == ManagedRestore(d, chain[OldIndex(t, j)])
       <==> !Stranded(d, chain, t, OldIndex(t, j))
  {
    if j != t {
      MergedRestoreElsewhere(d, chain, t, now, j);
    } else if IsSmart(chain[t].KindOf()) {
      MergedIntoSmart(d, chain, t, now);
    } else {
      MergedIntoCheckpoint(d, chain, t, now);
    }
  }

  // ---- dropping an archive ----

  /** The k-th archive is a Smart one whose links lead through the t-th. */
  ghost predicate BuildsOn(d: Disk, chain: seq<ArchiveName>, t: nat, k: nat)
    requires Links(d, chain) && k < |chain|
  {
    t < k && Root(d, chain, k) <= t
  }

  /** `e` holds the archives and records of one stretch, from a checkpoint on, as `d` does. */
  ghost predicate KeepsStretch(d: Disk, chain: seq<ArchiveName>, k: nat, e: Disk)
    requires Links(d, chain) && k < |chain|
  {
    forall i | Root(d, chain, k) <= i <= k ::
      && chain[i] in e.archives && e.archives[chain[i]] == d.archives[chain[i]]
      && chain[i] in e.records && e.records[chain[i]] == d.records[chain[i]]
  }

  /** A chain of its own on `e`: a stretch of the chain on `d` that starts with a checkpoint. */
  ghost predicate Window(d: Disk, chain: seq<ArchiveName>, root: nat, e: Disk, stretch: seq<ArchiveName>)
  {
    && Links(d, chain) && Present(e, stretch) && stretch != [] && root + |stretch| <= |chain|
    && IsFullLike(chain[root].KindOf())
    && forall i | 0 <= i < |stretch| ::
         && stretch[i] == chain[root + i]
         && e.archives[stretch[i]] == d.archives[stretch[i]] && e.records[stretch[i]] == d.records[stretch[i]]
  }

  lemma {:induction false} WindowReplay(d: Disk, chain: seq<ArchiveName>, root: nat, e: Disk, stretch: seq<ArchiveName>, i: nat)
    requires Window(d, chain, root, e, stretch) && i < |stretch|
    ensures Replay(e, stretch, i) == Replay(d, chain, root + i)
  {
    assert stretch[i] == chain[root + i];
    if 0 < i {
      WindowReplay(d, chain, root, e, stretch, i - 1);
    } else {
      assert Link(d, chain, root);
    }
    SameStep(d, chain, root + i, e, stretch, i);
  }

  lemma WindowLink(d: Disk, chain: seq<ArchiveName>, root: nat, e: Disk, stretch: seq<ArchiveName>, i: nat)
    requires Window(d, chain, root, e, stretch) && i < |stretch|
    ensures Link(e, stretch, i)
  {
    assert Link(d, chain, root + i);
    assert stretch[i] == chain[root + i];
    if 0 < i {
      assert stretch[i - 1] == chain[root + (i - 1)];
      WindowReplay(d, chain, root, e, stretch, i - 1);
    }
  }

  lemma StretchIsWindow(d: Disk, chain: seq<ArchiveName>, k: nat, e: Disk)
    requires ChainOk(d, chain) && k < |chain| && KeepsStretch(d, chain, k, e)
    ensures var root := Root(d, chain, k); var stretch := chain[root..k + 1];
      Window(d, chain, root, e, stretch) && Distinct(stretch)
  {
    var root := Root(d, chain, k);
    var stretch := chain[root..k + 1];
    forall i | 0 <= i < |stretch| ensures stretch[i] == chain[root + i] {}
    forall i, j | 0 <= i < j < |stretch| ensures stretch[i] != stretch[j] { assert chain[root + i] != chain[root + j]; }
  }

  /** The stretch restores on `e` as the base's file list there and the replay on `d` say. */
  lemma RestoreOfWindow(d: Disk, chain: seq<ArchiveName>, root: nat, k: nat, e: Disk, stretch: seq<ArchiveName>)
    requires Window(d, chain, root, e, stretch) && Distinct(stretch) && root <= k < root + |stretch|
    requires d.records[chain[k]].basedOn == chain[root]
    ensures ManagedRestore(e, chain[k]) ==
      if ReadsSmart(chain[k]) && d.records[chain[root]].fullList == [] then Err(PlanInvalid) else Ok(Replay(d, chain, k))
  {
    var i := k - root;
    assert stretch[i] == chain[root + i] && stretch[0] == chain[root + 0];
    forall j | 0 <= j < |stretch| ensures Link(e, stretch, j) { WindowLink(d, chain, root, e, stretch, j); }
    WindowReplay(d, chain, root, e, stretch, i);
    RestoreByBase(e, stretch, i);
  }

  /** A restore depends on nothing but the stretch from the checkpoint to the archive. */
  lemma RestoreFromStretch(d: Disk, chain: seq<ArchiveName>, k: nat, e: Disk)
    requires ChainOk(d, chain) && k < |chain| && KeepsStretch(d, chain, k, e)
    ensures ManagedRestore(e, chain[k]) == ManagedRestore(d, chain[k])
  {
    var root := Root(d, chain, k);
    StretchIsWindow(d, chain, k, e);
    BaseIsRoot(d, chain, k);
    RestoreOfWindow(d, chain, root, k, e, chain[root..k + 1]);
    RestoreByBase(d, chain, k);
  }

  /** The links of an archive that builds on the dropped one run into the gap. */
  lemma {:induction false} CutWalk(d: Disk, chain: seq<ArchiveName>, t: nat, k: nat, visited: set<ArchiveName>)
    requires ChainOk(d, chain) && k < |chain| && BuildsOn(d, chain, t, k)
    requires forall i | t <= i <= k :: chain[i] !in visited
    ensures MetadataChain(DroppedDisk(d, chain[t]), chain[k], visited) == Err(MetadataMissing)
  {
    assert Link(d, chain, k);
    assert chain[k] != chain[t] && chain[t] != NoArchive by { assert Link(d, chain, t); }
    if t + 1 < k {
      CutWalk(d, chain, t, k - 1, visited + {chain[k]});
    } else {
      assert d.records[chain[k]].previous == chain[t];
    }
  }

  /** Dropping any archive changes the restore of exactly the archives that build on it, and those
      fail on the missing metadata. */
  lemma DropKeepsRestore(d: Disk, chain: seq<ArchiveName>, t: nat, j: nat)
    requires ChainOk(d, chain) && t < |chain| && j < |chain| - 1
    ensures |DroppedChain(chain, t)| == |chain| - 1
    ensures var after := ManagedRestore(DroppedDisk(d, chain[t]), DroppedChain(chain, t)[j]);
      && (after == ManagedRestore(d, chain[OldIndex(t, j)]) <==> !BuildsOn(d, chain, t, OldIndex(t, j)))
      && (BuildsOn(d, chain, t, OldIndex(t, j)) ==> after == Err(MetadataMissing))
  {
    var k := OldIndex(t, j);
    assert DroppedChain(chain, t)[j] == chain[k] && chain[k] != chain[t];
    RestoreByBase(d, chain, k);
    if BuildsOn(d, chain, t, k) {
      assert Link(d, chain, k);
      CutWalk(d, chain, t, k, {});
    } else {
      assert t < k ==> t < Root(d, chain, k);
      RestoreFromStretch(d, chain, k, DroppedDisk(d, chain[t]));
    }
  }

  // ---- removing an archive ----

  /** The k-th archive restores differently after the t-th is removed. */
  ghost predicate Lost(d: Disk, chain: seq<ArchiveName>, t: nat, k: nat)
    requires ChainOk(d, chain) && k < |chain| && (MergesNext(chain, t) ==> Mergeable(d, chain, t))
  {
    if MergesNext(chain, t) then Stranded(d, chain, t, k) else BuildsOn(d, chain, t, k)
  }

  /** A removal leaves the restore of a surviving archive as it was if and only if that archive is
      neither stranded by a merge nor cut off by a direct removal. */
  lemma RemoveKeepsRestore(site: Site, w: World, t: nat, now: string, j: nat)
    requires Inv(site, w) && Removable(site, w, t) && j < |ChainOf(site, w)| - 1
    ensures MergesNext(ChainOf(site, w), t) ==> Mergeable(w.disk, ChainOf(site, w), t)
    ensures var x, chain := AfterRemove(site, w, t, now), ChainOf(site, w);
      && |ChainOf(site, x)| == |chain| - 1
      && (ManagedRestore(x.disk, ChainOf(site, x)[j]) == ManagedRestore(w.disk, chain[OldIndex(t, j)])
          <==> !Lost(w.disk, chain, t, OldIndex(t, j)))
  {
    RemovableCases(site, w, t);
    RemoveKeepsInv(site, w, t, now);
    if MergesNext(ChainOf(site, w), t) {
      MergeKeepsRestore(w.disk, ChainOf(site, w), t, now, j);
    } else {
      DropKeepsRestore(w.disk, ChainOf(site, w), t, j);
    }
  }

  /** A direct removal keeps every restore exactly when no misread Smart archive follows; otherwise
      the archive after it can no longer be restored. */
  lemma DirectRemovalKeepsRestores(site: Site, w: World, t: nat, now: string)
    requires Inv(site, w) && Removable(site, w, t) && !MergesNext(ChainOf(site, w), t)
    ensures var x, chain := AfterRemove(site, w, t, now), ChainOf(site, w);
      && |ChainOf(site, x)| == |chain| - 1
      && ((forall j | 0 <= j < |chain| - 1 ::
            ManagedRestore(x.disk, ChainOf(site, x)[j]) == ManagedRestore(w.disk, chain[OldIndex(t, j)]))
          <==> !Misleads(chain, t))
      && (Misleads(chain, t) ==> ManagedRestore(x.disk, chain[t + 1]) == Err(MetadataMissing))
  {
    var chain := ChainOf(site, w);
    RemovableCases(site, w, t);
    RemoveKeepsInv(site, w, t, now);
    forall j | 0 <= j < |chain| - 1
      ensures ManagedRestore(DroppedDisk(w.disk, chain[t]), DroppedChain(chain, t)[j]) == ManagedRestore(w.disk, chain[OldIndex(t, j)])
         <==> !BuildsOn(w.disk, chain, t, OldIndex(t, j))
    {
      DropKeepsRestore(w.disk, chain, t, j);
    }
    if Misleads(chain, t) {
      DropKeepsRestore(w.disk, chain, t, t);
    } else {
      NothingBuildsOn(w.disk, chain, t);
    }
  }

  lemma NothingBuildsOn(d: Disk, chain: seq<ArchiveName>, t: nat)
    requires ChainOk(d, chain) && Droppable(chain, t)
    ensures forall k | 0 <= k < |chain| :: !BuildsOn(d, chain, t, k)
  {}

  /** What a stranded archive restored to before, and how its restore fails afterwards. */
  lemma StrandedFails(d: Disk, chain: seq<ArchiveName>, t: nat, now: string, j: nat)
    requires Mergeable(d, chain, t) && j < |chain| - 1
    requires Stranded(d, chain, t, OldIndex(t, j))
    ensures |MergedChain(chain, t)| == |chain| - 1
    ensures ManagedRestore(d, chain[OldIndex(t, j)]) == Ok(Replay(d, chain, OldIndex(t, j)))
    ensures ManagedRestore(MergedDisk(d, chain, t, now), MergedChain(chain, t)[j]) == Err(PlanInvalid)
  {
    var e, merged, k := MergedDisk(d, chain, t, now), MergedChain(chain, t), OldIndex(t, j);
    MergedShape(chain, t);
    RestoreByBase(d, chain, k);
    MergeKeepsRestore(d, chain, t, now, j);
    MergeIsMerging(d, chain, t, now);
    MergeKeepsChain(d, chain, t, now);
    RestoreIsReplay(e, merged, j);
    MergeReplays(d, chain, t, now, j);
    BaseIsRoot(d, chain, k);
  }

  // ---- references after the repair ----

  /** No record and no state field refers to the deleted archive or to the replaced name. */
  lemma RepairLeavesNoStaleReference(records: map<ArchiveName, ChangeRecord>, state: Option<MetadataState>,
                                     repaired: ChangeRecord, names: Renaming)
    requires !SameReference(names.final, names.deleted)
    requires names.final != names.former ==> !SameReference(names.final, names.former)
    ensures var stale := (n: ArchiveName) =>
              SameReference(n, names.deleted) || (names.final != names.former && SameReference(n, names.former));
      && (forall n | n in RepairedRecords(records, repaired, names) ::
            && !stale(RepairedRecords(records, repaired, names)[n].previous)
            && !stale(RepairedRecords(records, repaired, names)[n].basedOn))
      && names.deleted !in RepairedRecords(records, repaired, names)
      && (names.final != names.former ==> names.former !in RepairedRecords(records, repaired, names))
      && (state.Some? ==>
            && !stale(RepairedState(state, names).value.last)
            && !stale(RepairedState(state, names).value.basedOn))
  {}

  /** After a merge, every archive's previous-links lead, without a cycle or a missing archive, to
      a checkpoint, and that checkpoint is the base its record names. */
  lemma WalksAfterMerge(d: Disk, chain: seq<ArchiveName>, t: nat, now: string, j: nat)
    requires Mergeable(d, chain, t) && j < |chain| - 1
    ensures var e, merged := MergedDisk(d, chain, t, now), MergedChain(chain, t);
      && |merged| == |chain| - 1
      && merged[j] in e.records
      && MetadataChain(e, merged[j], {}).Ok?
      && var walk := MetadataChain(e, merged[j], {}).value;
         && 0 < |walk| && walk[|walk| - 1] == merged[j]
         && IsFullLike(walk[0].KindOf())
         && e.records[merged[j]].basedOn == walk[0]
         && forall n | n in walk :: n in e.archives && n in e.records
  {
    var e, merged := MergedDisk(d, chain, t, now), MergedChain(chain, t);
    MergeKeepsChain(d, chain, t, now);
    WalkIsSound(e, merged, j);
  }
}
