/** Archives, their metadata, and what a chain of archives means: the files a restore yields. */
module Chain {
  import opened Names
  import opened Ordering
  import opened Delta

  type Path = string
  type Content = string
  type Files = map<Path, Content>

  /** `marker` stands for the internal directory that a deletion-only archive holds and that
      restores strip; `files` is everything else in the archive. */
  datatype Archive = Archive(files: Files, marker: bool, time: int)

  datatype ChangeRecord = ChangeRecord(
    archive: ArchiveName,
    backupType: Kind,
    basedOn: ArchiveName,
    previous: ArchiveName,
    createdAt: string,
    changes: ChangeSet,
    fullList: seq<Path>)

  /** uintmax_t */
  type FileSize = n: nat | n < 0x1_0000_0000_0000_0000

  datatype FileState = FileState(size: FileSize, lastWrite: string, hash: string)

  datatype MetadataState = MetadataState(
    lastTime: string,
    last: ArchiveName,
    basedOn: ArchiveName,
    files: map<Path, FileState>)

  /** The backup directory and the metadata directory of one world. */
  datatype Disk = Disk(
    archives: map<ArchiveName, Archive>,
    records: map<ArchiveName, ChangeRecord>,
    state: Option<MetadataState>)

  // ---- meaning of a chain ----

  function Overlay(base: Files, deleted: seq<Path>, files: Files): Files
  {
    (base - Elems(deleted)) + files
  }

  ghost predicate Present(d: Disk, chain: seq<ArchiveName>)
  {
    forall i | 0 <= i < |chain| :: chain[i] in d.archives && chain[i] in d.records
  }

  /** The files of the world after the i-th archive: a checkpoint starts afresh, a Smart archive
      drops its deleted paths and overlays its contents. */
  ghost function Replay(d: Disk, chain: seq<ArchiveName>, i: nat): Files
    requires i < |chain| && Present(d, chain)
  {
    if i == 0 || IsFullLike(d.records[chain[i]].backupType) then
      d.archives[chain[i]].files
    else
      Overlay(Replay(d, chain, i - 1), d.records[chain[i]].changes.deleted, d.archives[chain[i]].files)
  }

  ghost predicate CheckpointLink(d: Disk, n: ArchiveName)
    requires n in d.archives && n in d.records
  {
    var r := d.records[n];
    && IsFullLike(r.backupType)
    && r.previous == NoArchive
    && r.basedOn == n
    && Increasing(r.fullList)
    && Elems(r.fullList) == d.archives[n].files.Keys
    && r.changes == ChangeSet(r.fullList, [], [])
  }

  ghost predicate SmartLink(d: Disk, chain: seq<ArchiveName>, i: nat)
    requires i < |chain| && Present(d, chain)
  {
    var r := d.records[chain[i]];
    && IsSmart(r.backupType)
    && 0 < i
    && r.previous == chain[i - 1]
    && r.basedOn == d.records[chain[i - 1]].basedOn
    && r.fullList == []
    && WellListed(r.changes)
    && Consistent(r.changes, Replay(d, chain, i - 1).Keys)
    && d.archives[chain[i]].files.Keys == Elems(r.changes.added) + Elems(r.changes.modified)
  }

  ghost predicate Link(d: Disk, chain: seq<ArchiveName>, i: nat)
    requires i < |chain| && Present(d, chain)
  {
    var n := chain[i];
    && n.Named?
    && d.records[n].archive == n
    && d.records[n].backupType == n.kind
    && (CheckpointLink(d, n) || SmartLink(d, chain, i))
  }

  ghost predicate Distinct(chain: seq<ArchiveName>)
  {
    forall i, j | 0 <= i < j < |chain| :: chain[i] != chain[j]
  }

  ghost predicate Links(d: Disk, chain: seq<ArchiveName>)
  {
    && Present(d, chain)
    && forall i | 0 <= i < |chain| :: Link(d, chain, i)
  }

  ghost predicate ChainOk(d: Disk, chain: seq<ArchiveName>)
  {
    Links(d, chain) && Distinct(chain)
  }

  lemma ReplayKeys(d: Disk, chain: seq<ArchiveName>, i: nat)
    requires Links(d, chain) && i < |chain|
    ensures IsFullLike(chain[i].KindOf()) ==> Replay(d, chain, i) == d.archives[chain[i]].files
    ensures IsSmart(chain[i].KindOf()) ==>
              && 0 < i
              && Replay(d, chain, i).Keys == After(d.records[chain[i]].changes, Replay(d, chain, i - 1).Keys)
  {
    assert Link(d, chain, i);
  }

  /** The checkpoint that the i-th archive depends on. */
  ghost function Root(d: Disk, chain: seq<ArchiveName>, i: nat): (r: nat)
    requires Links(d, chain) && i < |chain|
    ensures r <= i && IsFullLike(chain[r].KindOf())
    ensures forall k | r < k <= i :: IsSmart(chain[k].KindOf())
    ensures d.records[chain[i]].basedOn == chain[r]
  {
    assert Link(d, chain, i);
    if IsFullLike(chain[i].KindOf()) then i else Root(d, chain, i - 1)
  }

  // ---- the restore planner ----

  datatype RestoreError =
    | NotFound
    | TypeInvalid
    | Cycle
    | PathInvalid
    | MetadataMissing
    | ArchiveMissing
    | FullBaseMissing
    | PlanInvalid

  /** Walks previous-links from `current` to a checkpoint; the chain comes back oldest first. */
  function MetadataChain(d: Disk, current: ArchiveName, visited: set<ArchiveName>)
    : Result<seq<ArchiveName>, RestoreError>
    decreases d.records.Keys - visited
  {
    if current in visited then Err(Cycle)
    else if current == NoArchive then Err(PathInvalid)
    else if current !in d.records then Err(MetadataMissing)
    else if current !in d.archives then Err(ArchiveMissing)
    else
      var r := d.records[current];
      var smart := if r.backupType == Untyped then ReadsSmart(current) else IsSmart(r.backupType);
      if !smart then
        if ReadsFullLike(current) then Ok([current]) else Err(FullBaseMissing)
      else if r.previous == NoArchive then Err(FullBaseMissing)
      else
        var older := MetadataChain(d, r.previous, visited + {current});
        if older.Err? then older else Ok(older.value + [current])
  }

  /** Which archive of the chain supplies each file. */
  function Claim(owners: map<Path, ArchiveName>, files: seq<Path>, owner: ArchiveName): map<Path, ArchiveName>
  {
    owners + map p | p in files :: owner
  }

  function Owners(d: Disk, chain: seq<ArchiveName>): Option<map<Path, ArchiveName>>
  {
    if chain == [] || chain[|chain| - 1] !in d.records then None
    else
      var n := chain[|chain| - 1];
      var r := d.records[n];
      if |chain| == 1 then
        if r.fullList == [] then None else Some(Claim(map[], r.fullList, n))
      else
        var older := Owners(d, chain[..|chain| - 1]);
        if older.None? then None
        else
          var next := Claim(Claim(older.value - Elems(r.changes.deleted), r.changes.added, r.archive),
                            r.changes.modified, r.archive);
          if r.fullList != [] && r.fullList != Listing(next.Keys) then None else Some(next)
  }

  function Extracted(d: Disk, owners: map<Path, ArchiveName>): Files
  {
    map p | p in owners && owners[p] in d.archives && p in d.archives[owners[p]].files
      :: d.archives[owners[p]].files[p]
  }

  /** A managed clean restore: a name that reads Smart is restored through its plan, any other
      full-like one is unpacked whole. */
  function ManagedRestore(d: Disk, selected: ArchiveName): Result<Files, RestoreError>
  {
    if selected !in d.archives then Err(NotFound)
    else if !ReadsSmart(selected) && !ReadsFullLike(selected) then Err(TypeInvalid)
    else if !ReadsSmart(selected) then Ok(d.archives[selected].files)
    else
      var chain := MetadataChain(d, selected, {});
      if chain.Err? then Err(chain.error)
      else
        var plan := Owners(d, chain.value);
        if plan.None? then Err(PlanInvalid) else Ok(Extracted(d, plan.value))
  }

  // ---- the planner computes the replayed files ----

  lemma {:induction false} WalkReachesRoot(d: Disk, chain: seq<ArchiveName>, i: nat, visited: set<ArchiveName>)
    requires ChainOk(d, chain) && i < |chain|
    requires forall k | 0 <= k <= i :: chain[k] !in visited
    ensures MetadataChain(d, chain[i], visited) == Ok(chain[Root(d, chain, i)..i + 1])
  {
    assert Link(d, chain, i);
    if IsSmart(chain[i].KindOf()) {
      WalkReachesRoot(d, chain, i - 1, visited + {chain[i]});
      assert chain[Root(d, chain, i)..i] + [chain[i]] == chain[Root(d, chain, i)..i + 1];
    } else {
      assert chain[i..i + 1] == [chain[i]];
    }
  }

  ghost predicate Owned(d: Disk, owners: map<Path, ArchiveName>, files: Files)
  {
    && owners.Keys == files.Keys
    && forall p | p in owners ::
         owners[p] in d.archives && p in d.archives[owners[p]].files && d.archives[owners[p]].files[p] == files[p]
  }

  lemma ClaimOwned(d: Disk, owners: map<Path, ArchiveName>, base: Files, r: ChangeRecord, n: ArchiveName)
    requires Owned(d, owners, base)
    requires n in d.archives && r.archive == n
    requires d.archives[n].files.Keys == Elems(r.changes.added) + Elems(r.changes.modified)
    ensures Owned(d, Claim(Claim(owners - Elems(r.changes.deleted), r.changes.added, n), r.changes.modified, n),
                  Overlay(base, r.changes.deleted, d.archives[n].files))
  {
    var files := d.archives[n].files;
    assert forall p :: p in r.changes.added <==> p in Elems(r.changes.added);
    assert forall p :: p in r.changes.modified <==> p in Elems(r.changes.modified);
    assert forall p :: p in files <==> p in r.changes.added || p in r.changes.modified;
  }

  lemma OwnersUnfold(d: Disk, front: seq<ArchiveName>, n: ArchiveName)
    requires front != [] && n in d.records && d.records[n].archive == n && d.records[n].fullList == []
    ensures var r := d.records[n];
      Owners(d, front + [n]) ==
        if Owners(d, front).None? then None
        else Some(Claim(Claim(Owners(d, front).value - Elems(r.changes.deleted), r.changes.added, n), r.changes.modified, n))
  {
    assert (front + [n])[..|front + [n]| - 1] == front;
  }

  /** The plan for a stretch follows a replay, or is refused for the checkpoint's empty list. */
  ghost predicate Planned(d: Disk, stretch: seq<ArchiveName>, empty: bool, files: Files)
  {
    var plan := Owners(d, stretch);
    if empty then plan.None? else plan.Some? && Owned(d, plan.value, files)
  }

  lemma CheckpointOwners(d: Disk, chain: seq<ArchiveName>, i: nat)
    requires Links(d, chain) && i < |chain| && IsFullLike(chain[i].KindOf())
    ensures Planned(d, [chain[i]], d.records[chain[i]].fullList == [], Replay(d, chain, i))
  {
    assert Link(d, chain, i);
    var list := d.records[chain[i]].fullList;
    assert forall p :: p in list <==> p in Elems(list);
  }

  /** One more Smart archive: the plan stays there or not, and follows the replay. */
  lemma OwnersStep(d: Disk, chain: seq<ArchiveName>, i: nat, front: seq<ArchiveName>, empty: bool)
    requires Links(d, chain) && 0 < i < |chain| && IsSmart(chain[i].KindOf()) && front != []
    requires Planned(d, front, empty, Replay(d, chain, i - 1))
    ensures Planned(d, front + [chain[i]], empty, Replay(d, chain, i))
  {
    assert Link(d, chain, i);
    OwnersUnfold(d, front, chain[i]);
    if Owners(d, front).Some? {
      ClaimOwned(d, Owners(d, front).value, Replay(d, chain, i - 1), d.records[chain[i]], chain[i]);
    }
  }

  lemma StretchGrows(chain: seq<ArchiveName>, root: nat, i: nat)
    requires root <= i < |chain|
    ensures chain[root..i + 1] == if root == i then [chain[i]] else chain[root..i] + [chain[i]]
  {}

  lemma {:induction false} StretchPlanned(d: Disk, chain: seq<ArchiveName>, i: nat)
    requires ChainOk(d, chain) && i < |chain|
    ensures var root := Root(d, chain, i);
      Planned(d, chain[root..i + 1], d.records[chain[root]].fullList == [], Replay(d, chain, i))
  {
    var root := Root(d, chain, i);
    StretchGrows(chain, root, i);
    if root == i {
      CheckpointOwners(d, chain, i);
    } else {
      StretchPlanned(d, chain, i - 1);
      OwnersStep(d, chain, i, chain[root..i], d.records[chain[root]].fullList == []);
    }
  }

  lemma OwnersMatchReplay(d: Disk, chain: seq<ArchiveName>, i: nat)
    requires ChainOk(d, chain) && i < |chain|
    ensures var root := Root(d, chain, i);
      var plan := Owners(d, chain[root..i + 1]);
      if d.records[chain[root]].fullList == [] then plan.None?
      else plan.Some? && Owned(d, plan.value, Replay(d, chain, i))
  {
    StretchPlanned(d, chain, i);
  }

  /** A managed restore yields exactly the replayed files. The one thing that stops it is a name that
      reads Smart over a checkpoint that recorded an empty file list, which the planner rejects. */
  lemma RestoreIsReplay(d: Disk, chain: seq<ArchiveName>, i: nat)
    requires ChainOk(d, chain) && i < |chain|
    ensures ManagedRestore(d, chain[i]) ==
      if ReadsSmart(chain[i]) && d.records[chain[Root(d, chain, i)]].fullList == [] then Err(PlanInvalid)
      else Ok(Replay(d, chain, i))
  {
    assert Link(d, chain, i);
    if ReadsSmart(chain[i]) {
      WalkReachesRoot(d, chain, i, {});
      OwnersMatchReplay(d, chain, i);
      var root := Root(d, chain, i);
      if d.records[chain[root]].fullList != [] {
        var owners := Owners(d, chain[root..i + 1]).value;
        assert Extracted(d, owners) == Replay(d, chain, i);
      }
    }
  }
}
