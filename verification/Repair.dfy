/** Merging an archive into its successor: the new archive, the rewritten metadata, and the proof
    that every surviving archive still means the same files. */
module Repair {
  import opened Names
  import opened Ordering
  import opened Delta
  import opened Chain

  /** Unpack the first archive, unpack the second over it, drop what the second deleted. */
  function MergedFiles(first: Files, second: Files, deleted: seq<Path>): Files
  {
    (first + second) - Elems(deleted)
  }

  function FullListAfter(deleted: ChangeRecord, merged: ChangeRecord): seq<Path>
  {
    Listing(After(merged.changes, Elems(deleted.fullList)))
  }

  /** The record of the merged archive; none when a checkpoint has no complete file list. */
  function RepairedRecord(deleted: ChangeRecord, merged: ChangeRecord, finalName: ArchiveName,
                          finalKind: Kind, now: string): Option<ChangeRecord>
  {
    var created := if merged.createdAt == "" then now else merged.createdAt;
    if IsSmart(finalKind) then
      Some(ChangeRecord(finalName, finalKind,
                        if merged.basedOn == NoArchive then deleted.basedOn else merged.basedOn,
                        deleted.previous, created, Compose(deleted.changes, merged.changes), []))
    else if deleted.fullList == [] then None
    else
      var full := FullListAfter(deleted, merged);
      Some(ChangeRecord(finalName, finalKind, finalName, NoArchive, created, ChangeSet(full, [], []), full))
  }

  /** Names involved in one merge. */
  datatype Renaming = Renaming(deleted: ArchiveName, former: ArchiveName, final: ArchiveName)
  {
    function Apply(n: ArchiveName): ArchiveName
    {
      if SameReference(n, deleted) || (former != final && SameReference(n, former)) then final else n
    }

    function ApplyToRecord(r: ChangeRecord): ChangeRecord
    {
      r.(previous := Apply(r.previous), basedOn := Apply(r.basedOn),
         fullList := if IsSmart(r.backupType) then [] else r.fullList)
    }

    function ApplyToState(s: MetadataState): MetadataState
    {
      s.(last := if SameReference(s.last, deleted) || SameReference(s.last, former) then final else s.last,
         basedOn := Apply(s.basedOn))
    }
  }

  /** The repaired record is stored under the final name; the names that go out of use lose theirs. */
  function KeptRecords(records: map<ArchiveName, ChangeRecord>, repaired: ChangeRecord, names: Renaming)
    : map<ArchiveName, ChangeRecord>
  {
    records[names.final := repaired] - {names.deleted} - (if names.former != names.final then {names.former} else {})
  }

  function RepairedRecords(records: map<ArchiveName, ChangeRecord>, repaired: ChangeRecord, names: Renaming)
    : map<ArchiveName, ChangeRecord>
  {
    var kept := KeptRecords(records, repaired, names);
    map n | n in kept :: names.ApplyToRecord(kept[n])
  }

  function RepairedState(state: Option<MetadataState>, names: Renaming): Option<MetadataState>
  {
    if state.None? then None else Some(names.ApplyToState(state.value))
  }

  // Name and type of a merged archive; `checkpoint` says that the archive merged away counted as full-like.

  function FinalName(checkpoint: bool, next: ArchiveName): ArchiveName
  {
    if checkpoint then PromotedName(next) else next
  }

  function FinalKind(checkpoint: bool, next: Kind): Kind
  {
    if checkpoint then Full else next
  }

  function MergedArchives(archives: map<ArchiveName, Archive>, names: Renaming, dropped: seq<Path>)
    : map<ArchiveName, Archive>
    requires names.deleted in archives && names.former in archives
  {
    var merged := Archive(MergedFiles(archives[names.deleted].files, archives[names.former].files, dropped), false,
                          archives[names.former].time);
    (archives - {names.former})[names.final := merged] - {names.deleted}
  }

  ghost predicate Keyed(d: Disk)
  {
    forall n | n in d.records :: n.Named? && d.records[n].archive == n
  }

  /** Every name that a file on disk carries or that the saved state refers to. */
  ghost function InPlay(d: Disk): set<ArchiveName>
  {
    d.archives.Keys + d.records.Keys + if d.state.Some? then {d.state.value.last, d.state.value.basedOn} else {}
  }

  /** A link that the program can merge away. */
  ghost predicate Mergeable(d: Disk, chain: seq<ArchiveName>, t: nat)
  {
    && ChainOk(d, chain)
    && Keyed(d)
    && UniqueStems(InPlay(d))
    && t + 1 < |chain|
    && IsSmart(chain[t + 1].KindOf())
    && (ReadsFullLike(chain[t]) ==> d.records[chain[t]].fullList != [])
  }

  ghost function MergedName(chain: seq<ArchiveName>, t: nat): ArchiveName
    requires t + 1 < |chain|
  {
    FinalName(IsFullLike(chain[t].KindOf()), chain[t + 1])
  }

  ghost function MergedKind(chain: seq<ArchiveName>, t: nat): Kind
    requires t + 1 < |chain|
  {
    FinalKind(IsFullLike(chain[t].KindOf()), chain[t + 1].KindOf())
  }

  ghost function MergeNames(chain: seq<ArchiveName>, t: nat): Renaming
    requires t + 1 < |chain|
  {
    Renaming(chain[t], chain[t + 1], MergedName(chain, t))
  }

  /** Only checkpoints have a file list, so what can be merged away reads full-like only if it is one. */
  lemma ReadsAsItIs(d: Disk, chain: seq<ArchiveName>, t: nat)
    requires Mergeable(d, chain, t)
    ensures ReadsFullLike(chain[t]) <==> IsFullLike(chain[t].KindOf())
    ensures IsFullLike(chain[t].KindOf()) ==> d.records[chain[t]].fullList != []
  {
    assert Link(d, chain, t);
  }

  ghost function MergedRecord(d: Disk, chain: seq<ArchiveName>, t: nat, now: string): ChangeRecord
    requires Mergeable(d, chain, t)
  {
    assert Link(d, chain, t) && Link(d, chain, t + 1);
    RepairedRecord(d.records[chain[t]], d.records[chain[t + 1]], MergeNames(chain, t).final,
                   MergedKind(chain, t), now).value
  }

  ghost function MergedDisk(d: Disk, chain: seq<ArchiveName>, t: nat, now: string): Disk
    requires Mergeable(d, chain, t)
  {
    Disk(MergedArchives(d.archives, MergeNames(chain, t), d.records[chain[t + 1]].changes.deleted),
         RepairedRecords(d.records, MergedRecord(d, chain, t, now), MergeNames(chain, t)),
         RepairedState(d.state, MergeNames(chain, t)))
  }

  ghost function MergedChain(chain: seq<ArchiveName>, t: nat): seq<ArchiveName>
    requires t + 1 < |chain|
  {
    chain[..t] + [MergedName(chain, t)] + chain[t + 2..]
  }

  /** Position in the old chain of the j-th archive of the merged chain. */
  function OldIndex(t: nat, j: nat): nat { if j < t then j else j + 1 }

  // ---- names ----

  lemma ReferencesAreExact(d: Disk, a: ArchiveName, b: ArchiveName)
    requires UniqueStems(InPlay(d))
    requires a in InPlay(d) && b in InPlay(d) && b.Named?
    ensures SameReference(a, b) <==> a == b
  {}

  lemma FinalIsFresh(d: Disk, chain: seq<ArchiveName>, t: nat, n: ArchiveName)
    requires Mergeable(d, chain, t)
    requires n in InPlay(d) && n != chain[t + 1]
    ensures n != MergedName(chain, t)
    ensures chain[t + 1] != MergedName(chain, t) ==> IsFullLike(chain[t].KindOf())
    ensures MergedName(chain, t).Named?
  {
    assert chain[t + 1] in InPlay(d);
    assert Link(d, chain, t + 1);
  }

  /** On names in play, the case-insensitive renaming replaces exactly the two merged names. */
  lemma RenamingIsExact(d: Disk, chain: seq<ArchiveName>, t: nat, n: ArchiveName)
    requires Mergeable(d, chain, t)
    requires n in InPlay(d) || n == NoArchive
    ensures MergeNames(chain, t).Apply(n) ==
            if n == chain[t] || n == chain[t + 1] then MergedName(chain, t) else n
  {
    assert Link(d, chain, t) && Link(d, chain, t + 1);
    assert chain[t] in InPlay(d) && chain[t + 1] in InPlay(d);
    if n != NoArchive {
      ReferencesAreExact(d, n, chain[t]);
      ReferencesAreExact(d, n, chain[t + 1]);
    }
  }

  // ---- the merged archive ----

  function Lookup(files: Files, p: Path): Option<Content> { if p in files then Some(files[p]) else None }

  /** What overlaying a record's archive does to one path. */
  lemma OverlayAt(base: Files, c: ChangeSet, files: Files, p: Path)
    requires WellListed(c)
    requires p in files <==> p in Elems(c.added) + Elems(c.modified)
    ensures Lookup(Overlay(base, c.deleted, files), p) ==
      match KindAt(c, p)
      case None => Lookup(base, p)
      case Some(Deleted) => None
      case Some(_) => Some(files[p])
  {
    KindMembership(c, p);
  }

  lemma MergedAt(a: ChangeSet, first: Files, b: ChangeSet, second: Files, p: Path)
    requires WellListed(a) && WellListed(b)
    requires first.Keys == Elems(a.added) + Elems(a.modified)
    requires second.Keys == Elems(b.added) + Elems(b.modified)
    ensures Lookup(MergedFiles(first, second, b.deleted), p) ==
      match KindAt(b, p)
      case None => Lookup(first, p)
      case Some(Deleted) => None
      case Some(_) => Some(second[p])
  {
    KindMembership(b, p);
    assert p in second <==> p in second.Keys;
  }

  lemma MergeIsSequencingAt(base: Files, a: ChangeSet, first: Files, b: ChangeSet, second: Files, p: Path)
    requires WellListed(a) && WellListed(b)
    requires Consistent(a, base.Keys) && first.Keys == Elems(a.added) + Elems(a.modified)
    requires Consistent(b, After(a, base.Keys)) && second.Keys == Elems(b.added) + Elems(b.modified)
    ensures Lookup(Overlay(base, Compose(a, b).deleted, MergedFiles(first, second, b.deleted)), p)
         == Lookup(Overlay(Overlay(base, a.deleted, first), b.deleted, second), p)
    ensures p in MergedFiles(first, second, b.deleted)
       <==> p in Elems(Compose(a, b).added) + Elems(Compose(a, b).modified)
  {
    KindMembership(a, p);
    KindMembership(b, p);
    ComposeMembership(a, b, p);
    ComposeAt(a, b, p);
    MergedAt(a, first, b, second, p);
    assert p in first <==> p in first.Keys;
    assert p in second <==> p in second.Keys;
    OverlayAt(base, a, first, p);
    OverlayAt(Overlay(base, a.deleted, first), b, second, p);
    OverlayAt(base, Compose(a, b), MergedFiles(first, second, b.deleted), p);
  }

  /** Overlaying the merged archive on any files that the first record fits is the same as
      overlaying the two archives one after the other. */
  lemma MergeIsSequencing(base: Files, a: ChangeSet, first: Files, b: ChangeSet, second: Files)
    requires WellListed(a) && WellListed(b)
    requires Consistent(a, base.Keys) && first.Keys == Elems(a.added) + Elems(a.modified)
    requires Consistent(b, After(a, base.Keys)) && second.Keys == Elems(b.added) + Elems(b.modified)
    ensures Overlay(base, Compose(a, b).deleted, MergedFiles(first, second, b.deleted))
         == Overlay(Overlay(base, a.deleted, first), b.deleted, second)
    ensures MergedFiles(first, second, b.deleted).Keys
         == Elems(Compose(a, b).added) + Elems(Compose(a, b).modified)
  {
    var merged := MergedFiles(first, second, b.deleted);
    var one := Overlay(base, Compose(a, b).deleted, merged);
    var two := Overlay(Overlay(base, a.deleted, first), b.deleted, second);
    forall p
      ensures Lookup(one, p) == Lookup(two, p)
      ensures p in merged <==> p in Elems(Compose(a, b).added) + Elems(Compose(a, b).modified)
    {
      MergeIsSequencingAt(base, a, first, b, second, p);
    }
    SameLookups(one, two);
  }

  lemma SameLookups(x: Files, y: Files)
    requires forall p :: Lookup(x, p) == Lookup(y, p)
    ensures x == y
  {
    forall p ensures p in x <==> p in y {
      assert Lookup(x, p) == Lookup(y, p);
    }
    forall p | p in x ensures x[p] == y[p] {
      assert Lookup(x, p) == Lookup(y, p);
    }
  }

  lemma MergeIntoCheckpoint(first: Files, b: ChangeSet, second: Files)
    requires WellListed(b)
    requires Consistent(b, first.Keys) && second.Keys == Elems(b.added) + Elems(b.modified)
    ensures MergedFiles(first, second, b.deleted) == Overlay(first, b.deleted, second)
    ensures MergedFiles(first, second, b.deleted).Keys == After(b, first.Keys)
  {
    forall p ensures p in Elems(b.deleted) ==> p !in second {
      KindMembership(b, p);
    }
    assert (first + second) - Elems(b.deleted) == (first - Elems(b.deleted)) + second;
  }

  // ---- the chain after the merge ----

  /** What the rest of the proof needs to know about the disk after the merge. */
  ghost predicate MergesTo(d: Disk, chain: seq<ArchiveName>, t: nat, repaired: ChangeRecord, e: Disk)
    requires t + 1 < |chain| && Present(d, chain)
  {
    var final := MergedName(chain, t);
    && final in e.archives && final in e.records
    && e.archives[final].files == MergedFiles(d.archives[chain[t]].files, d.archives[chain[t + 1]].files,
                                              d.records[chain[t + 1]].changes.deleted)
    && e.records[final] == MergeNames(chain, t).ApplyToRecord(repaired)
    && forall k | 0 <= k < |chain| && k != t && k != t + 1 :: Survives(d, chain[k], MergeNames(chain, t), e)
  }

  ghost predicate Survives(d: Disk, n: ArchiveName, names: Renaming, e: Disk)
    requires n in d.archives && n in d.records
  {
    && n != names.final
    && n in e.archives && e.archives[n] == d.archives[n]
    && n in e.records && e.records[n] == names.ApplyToRecord(d.records[n])
  }

  lemma MergedDiskMerges(d: Disk, chain: seq<ArchiveName>, t: nat, now: string)
    requires Mergeable(d, chain, t)
    ensures MergesTo(d, chain, t, MergedRecord(d, chain, t, now), MergedDisk(d, chain, t, now))
  {
    assert chain[t] in InPlay(d) && chain[t] != chain[t + 1];
    FinalIsFresh(d, chain, t, chain[t]);
    forall k | 0 <= k < |chain| && k != t && k != t + 1
      ensures Survives(d, chain[k], MergeNames(chain, t), MergedDisk(d, chain, t, now))
    {
      assert chain[k] in InPlay(d) && chain[k] != chain[t] && chain[k] != chain[t + 1];
      FinalIsFresh(d, chain, t, chain[k]);
    }
  }

  // ---- the whole effect of a merge on the disk ----

  /** The archives after a merge: the next one, under its final name and with its time, holds what either held and the
      next did not delete, and newer content wins; all others are as they were. */
  ghost predicate ArchivesMerged(before: map<ArchiveName, Archive>, gone: ArchiveName, next: ArchiveName, final: ArchiveName,
                                 deleted: seq<Path>, after: map<ArchiveName, Archive>)
  {
    && gone in before && next in before && final in after
    && (forall n :: n in after <==> n == final || (n in before && n != gone && n != next))
    && (forall n | n in before && n in after && n != final :: after[n] == before[n])
    && var a, x, y := after[final], before[gone].files, before[next].files;
       && !a.marker && a.time == before[next].time
       && forall p ::
            && (p in a.files <==> (p in x || p in y) && p !in deleted)
            && (p in a.files && p in y ==> a.files[p] == y[p])
            && (p in a.files && p !in y && p in x ==> a.files[p] == x[p])
  }

  /** One of the two merged names becomes the final one, any other stays. */
  function Moved(n: ArchiveName, gone: ArchiveName, next: ArchiveName, final: ArchiveName): ArchiveName
  {
    if n == gone || n == next then final else n
  }

  /** At most the references of a record follow the archives, and a Smart one lists no files. */
  ghost predicate RecordFollows(r: ChangeRecord, gone: ArchiveName, next: ArchiveName, final: ArchiveName,
                                inPlay: set<ArchiveName>, q: ChangeRecord)
  {
    && q == r.(previous := q.previous, basedOn := q.basedOn, fullList := q.fullList)
    && q.fullList == (if IsSmart(r.backupType) then [] else r.fullList)
    && (r.previous in inPlay || r.previous == NoArchive ==> q.previous == Moved(r.previous, gone, next, final))
    && (r.basedOn in inPlay || r.basedOn == NoArchive ==> q.basedOn == Moved(r.basedOn, gone, next, final))
  }

  /** The records after a merge: one under the final name, of the type made, created when the next one was; every other one
      follows. */
  ghost predicate RecordsMerged(before: map<ArchiveName, ChangeRecord>, gone: ArchiveName, next: ArchiveName,
                                final: ArchiveName, now: string, inPlay: set<ArchiveName>, after: map<ArchiveName, ChangeRecord>)
  {
    && gone in before && next in before && final in after
    && (forall n :: n in after <==> n == final || (n in before && n != gone && n != next))
    && (forall n | n in before && n in after && n != final ::
          RecordFollows(before[n], gone, next, final, inPlay, after[n]))
    && after[final].archive == final
    && after[final].backupType == (if IsFullLike(gone.KindOf()) then Full else Smart)
    && after[final].createdAt == if before[next].createdAt == "" then now else before[next].createdAt
  }

  /** The state after a merge: its references follow the archives, time and files are as they were. */
  ghost predicate StateMerged(before: Option<MetadataState>, gone: ArchiveName, next: ArchiveName, final: ArchiveName,
                              after: Option<MetadataState>)
  {
    match before
    case None => after == None
    case Some(s) =>
      after == Some(MetadataState(s.lastTime, Moved(s.last, gone, next, final), Moved(s.basedOn, gone, next, final), s.files))
  }

  /** Everything a merge does to the disk. */
  lemma MergeIs(d: Disk, chain: seq<ArchiveName>, t: nat, now: string)
    requires Mergeable(d, chain, t)
    ensures var gone, next := chain[t], chain[t + 1];
      var final := if IsFullLike(gone.KindOf()) then PromotedName(next) else next;
      var e := MergedDisk(d, chain, t, now);
      && next in d.records
      && ArchivesMerged(d.archives, gone, next, final, d.records[next].changes.deleted, e.archives)
      && RecordsMerged(d.records, gone, next, final, now, InPlay(d), e.records)
      && StateMerged(d.state, gone, next, final, e.state)
  {
    var gone, next, final := chain[t], chain[t + 1], MergedName(chain, t);
    assert Link(d, chain, t) && Link(d, chain, t + 1);
    FinalElsewhere(d, chain, t);
    ArchivesAre(d.archives, MergeNames(chain, t), d.records[next].changes.deleted);
    MergedRecordsAre(d, chain, t, now, MergedRecord(d, chain, t, now));
    if d.state.Some? {
      RenamingIsExact(d, chain, t, d.state.value.last);
      RenamingIsExact(d, chain, t, d.state.value.basedOn);
      ReferencesAreExact(d, d.state.value.last, gone);
      ReferencesAreExact(d, d.state.value.last, next);
    }
  }

  lemma FinalElsewhere(d: Disk, chain: seq<ArchiveName>, t: nat)
    requires Mergeable(d, chain, t)
    ensures chain[t] != chain[t + 1] && MergedName(chain, t) != chain[t]
    ensures forall n | (n in d.archives || n in d.records) && n != chain[t + 1] :: n != MergedName(chain, t)
    ensures chain[t] in InPlay(d) && chain[t + 1] in InPlay(d)
  {
    assert chain[t] in InPlay(d) && chain[t + 1] in InPlay(d);
    forall n | n in InPlay(d) && n != chain[t + 1] ensures n != MergedName(chain, t) { FinalIsFresh(d, chain, t, n); }
  }

  lemma ArchivesAre(archives: map<ArchiveName, Archive>, names: Renaming, deleted: seq<Path>)
    requires names.deleted in archives && names.former in archives && names.deleted != names.former
    requires names.final != names.deleted && (names.final in archives ==> names.final == names.former)
    ensures ArchivesMerged(archives, names.deleted, names.former, names.final, deleted, MergedArchives(archives, names, deleted))
  {
    assert forall p :: p in deleted <==> p in Elems(deleted);
  }

  lemma OneRecordFollows(d: Disk, chain: seq<ArchiveName>, t: nat, r: ChangeRecord)
    requires Mergeable(d, chain, t)
    ensures RecordFollows(r, chain[t], chain[t + 1], MergedName(chain, t), InPlay(d), MergeNames(chain, t).ApplyToRecord(r))
  {
    if r.previous in InPlay(d) || r.previous == NoArchive { RenamingIsExact(d, chain, t, r.previous); }
    if r.basedOn in InPlay(d) || r.basedOn == NoArchive { RenamingIsExact(d, chain, t, r.basedOn); }
  }

  lemma RepairedRecordsAre(records: map<ArchiveName, ChangeRecord>, r: ChangeRecord, names: Renaming)
    requires names.final != names.deleted
    ensures var after := RepairedRecords(records, r, names);
      && (forall n :: n in after <==> n == names.final || (n in records && n != names.deleted && n != names.former))
      && (forall n | n in records && n in after && n != names.final :: after[n] == names.ApplyToRecord(records[n]))
      && after[names.final] == names.ApplyToRecord(r)
  {}

  lemma MergedRecordsAre(d: Disk, chain: seq<ArchiveName>, t: nat, now: string, r: ChangeRecord)
    requires Mergeable(d, chain, t) && r == MergedRecord(d, chain, t, now)
    ensures RecordsMerged(d.records, chain[t], chain[t + 1], MergedName(chain, t), now, InPlay(d),
                          RepairedRecords(d.records, r, MergeNames(chain, t)))
  {
    var names := MergeNames(chain, t);
    var after := RepairedRecords(d.records, r, names);
    FinalElsewhere(d, chain, t);
    RepairedRecordsAre(d.records, r, names);
    forall n | n in d.records && n in after && n != names.final
      ensures RecordFollows(d.records[n], chain[t], chain[t + 1], names.final, InPlay(d), after[n])
    {
      OneRecordFollows(d, chain, t, d.records[n]);
    }
    MergedHead(d, chain, t, now);
  }

  lemma MergedHead(d: Disk, chain: seq<ArchiveName>, t: nat, now: string)
    requires Mergeable(d, chain, t)
    ensures chain[t] in d.records && chain[t + 1] in d.records
    ensures var r := MergedRecord(d, chain, t, now);
      && r.archive == MergedName(chain, t)
      && r.backupType == (if IsFullLike(chain[t].KindOf()) then Full else Smart)
      && r.createdAt == if d.records[chain[t + 1]].createdAt == "" then now else d.records[chain[t + 1]].createdAt
  {
    assert Link(d, chain, t) && Link(d, chain, t + 1);
  }

  lemma MergedShape(chain: seq<ArchiveName>, t: nat)
    requires t + 1 < |chain|
    ensures |MergedChain(chain, t)| == |chain| - 1
    ensures MergedChain(chain, t)[t] == MergedName(chain, t)
    ensures forall j | 0 <= j < |chain| - 1 && j != t :: MergedChain(chain, t)[j] == chain[OldIndex(t, j)]
  {}

  lemma MergedPresent(d: Disk, chain: seq<ArchiveName>, t: nat, r: ChangeRecord, e: Disk)
    requires t + 1 < |chain| && Present(d, chain) && Distinct(chain) && MergesTo(d, chain, t, r, e)
    ensures Present(e, MergedChain(chain, t)) && Distinct(MergedChain(chain, t))
  {
    MergedShape(chain, t);
    var merged := MergedChain(chain, t);
    forall j | 0 <= j < |merged| ensures merged[j] in e.archives && merged[j] in e.records {
      if j != t { assert Survives(d, chain[OldIndex(t, j)], MergeNames(chain, t), e); }
    }
    forall i, j | 0 <= i < j < |merged| ensures merged[i] != merged[j] {
      if i != t { assert Survives(d, chain[OldIndex(t, i)], MergeNames(chain, t), e); }
      if j != t { assert Survives(d, chain[OldIndex(t, j)], MergeNames(chain, t), e); }
      assert OldIndex(t, i) < OldIndex(t, j);
    }
  }

  ghost predicate Merging(d: Disk, chain: seq<ArchiveName>, t: nat, r: ChangeRecord, e: Disk, merged: seq<ArchiveName>)
  {
    && t + 1 < |chain| && |merged| == |chain| - 1
    && Links(d, chain) && Present(e, merged)
    && MergesTo(d, chain, t, r, e)
    && merged[t] == MergedName(chain, t)
    && forall j | 0 <= j < |merged| && j != t :: merged[j] == chain[OldIndex(t, j)]
  }

  // ---- replayed files ----

  /** An archive kept as it was, that starts afresh or follows equal files, replays to equal files. */
  lemma SameStep(d: Disk, chain: seq<ArchiveName>, k: nat, e: Disk, kept: seq<ArchiveName>, j: nat)
    requires k < |chain| && Present(d, chain) && j < |kept| && Present(e, kept)
    requires e.archives[kept[j]].files == d.archives[chain[k]].files
    requires e.records[kept[j]].backupType == d.records[chain[k]].backupType
    requires e.records[kept[j]].changes == d.records[chain[k]].changes
    requires IsFullLike(d.records[chain[k]].backupType)
          || (0 < j && 0 < k && Replay(e, kept, j - 1) == Replay(d, chain, k - 1))
    ensures Replay(e, kept, j) == Replay(d, chain, k)
  {}

  lemma {:induction false} ReplayBefore(d: Disk, chain: seq<ArchiveName>, t: nat, r: ChangeRecord, e: Disk,
                                        merged: seq<ArchiveName>, j: nat)
    requires Merging(d, chain, t, r, e, merged) && j < t
    ensures Replay(e, merged, j) == Replay(d, chain, j)
  {
    if 0 < j { ReplayBefore(d, chain, t, r, e, merged, j - 1); }
    assert merged[j] == chain[OldIndex(t, j)];
    assert Link(d, chain, j) && Survives(d, chain[j], MergeNames(chain, t), e);
    SameStep(d, chain, j, e, merged, j);
  }

  lemma {:induction false} ReplayAfter(d: Disk, chain: seq<ArchiveName>, t: nat, r: ChangeRecord, e: Disk,
                                       merged: seq<ArchiveName>, j: nat)
    requires Merging(d, chain, t, r, e, merged) && t <= j < |merged|
    requires Replay(e, merged, t) == Replay(d, chain, t + 1)
    ensures Replay(e, merged, j) == Replay(d, chain, j + 1)
  {
    if t < j {
      ReplayAfter(d, chain, t, r, e, merged, j - 1);
      assert merged[j] == chain[OldIndex(t, j)];
      assert Survives(d, chain[j + 1], MergeNames(chain, t), e);
      SameStep(d, chain, j + 1, e, merged, j);
    }
  }

  /** The two records being merged, side by side. */
  ghost predicate MergeOf(d: Disk, chain: seq<ArchiveName>, t: nat, r: ChangeRecord)
    requires t + 1 < |chain| && Present(d, chain)
  {
    var final := MergedName(chain, t);
    var a, b := d.records[chain[t]], d.records[chain[t + 1]];
    && r.archive == final
    && r.backupType == MergedKind(chain, t)
    && if IsFullLike(chain[t].KindOf()) then
         && r.basedOn == final && r.previous == NoArchive
         && r.fullList == FullListAfter(a, b) && r.changes == ChangeSet(r.fullList, [], [])
       else
         && r.previous == a.previous && r.fullList == []
         && (b.basedOn != NoArchive ==> r.basedOn == b.basedOn)
         && r.changes == Compose(a.changes, b.changes)
  }

  lemma MergedRecordIsMerge(d: Disk, chain: seq<ArchiveName>, t: nat, now: string)
    requires Mergeable(d, chain, t)
    ensures MergeOf(d, chain, t, MergedRecord(d, chain, t, now))
    ensures MergedRecord(d, chain, t, now).createdAt
         == if d.records[chain[t + 1]].createdAt == "" then now else d.records[chain[t + 1]].createdAt
  {
    assert Link(d, chain, t) && Link(d, chain, t + 1);
  }

  /** The merged archive replays to what its second half replayed to before. */
  lemma ReplayAtMerge(d: Disk, chain: seq<ArchiveName>, t: nat, r: ChangeRecord, e: Disk, merged: seq<ArchiveName>)
    requires Merging(d, chain, t, r, e, merged) && MergeOf(d, chain, t, r)
    requires IsSmart(chain[t + 1].KindOf())
    requires 0 < t ==> Replay(e, merged, t - 1) == Replay(d, chain, t - 1)
    ensures Replay(e, merged, t) == Replay(d, chain, t + 1)
  {
    assert Link(d, chain, t) && Link(d, chain, t + 1);
    ReplayKeys(d, chain, t);
    var first, second := d.archives[chain[t]].files, d.archives[chain[t + 1]].files;
    var a, b := d.records[chain[t]].changes, d.records[chain[t + 1]].changes;
    if IsFullLike(chain[t].KindOf()) {
      MergeIntoCheckpoint(first, b, second);
    } else {
      MergeIsSequencing(Replay(d, chain, t - 1), a, first, b, second);
    }
  }

  lemma MergedReplay(d: Disk, chain: seq<ArchiveName>, t: nat, r: ChangeRecord, e: Disk, merged: seq<ArchiveName>, j: nat)
    requires Merging(d, chain, t, r, e, merged) && MergeOf(d, chain, t, r)
    requires IsSmart(chain[t + 1].KindOf()) && j < |merged|
    ensures Replay(e, merged, j) == Replay(d, chain, OldIndex(t, j))
  {
    if j < t {
      ReplayBefore(d, chain, t, r, e, merged, j);
    } else {
      if 0 < t { ReplayBefore(d, chain, t, r, e, merged, t - 1); }
      ReplayAtMerge(d, chain, t, r, e, merged);
      ReplayAfter(d, chain, t, r, e, merged, j);
    }
  }

  // ---- links ----

  /** References inside the chain, after renaming, are the references of the merged chain. */
  ghost predicate ReferencesFollow(chain: seq<ArchiveName>, t: nat)
    requires t + 1 < |chain|
  {
    var names := MergeNames(chain, t);
    && names.Apply(NoArchive) == NoArchive
    && names.Apply(names.final) == names.final
    && forall k | 0 <= k < |chain| ::
         names.Apply(chain[k]) == if k == t || k == t + 1 then names.final else chain[k]
  }

  lemma MergeRenames(d: Disk, chain: seq<ArchiveName>, t: nat)
    requires Mergeable(d, chain, t)
    ensures ReferencesFollow(chain, t)
  {
    var names := MergeNames(chain, t);
    forall k | 0 <= k < |chain|
      ensures names.Apply(chain[k]) == if k == t || k == t + 1 then names.final else chain[k]
    {
      assert chain[k] in InPlay(d);
      RenamingIsExact(d, chain, t, chain[k]);
    }
    assert Link(d, chain, t + 1);
    assert names.final == chain[t + 1] || names.final.kind != chain[t + 1].kind;
    assert chain[t] in InPlay(d) && chain[t + 1] in InPlay(d);
    assert names.Apply(names.final) == names.final;
  }

  /** A surviving link stays a link when its renamed references name its new predecessor. */
  lemma SameLink(d: Disk, chain: seq<ArchiveName>, k: nat, e: Disk, merged: seq<ArchiveName>, j: nat, names: Renaming)
    requires k < |chain| && Present(d, chain) && j < |merged| && Present(e, merged)
    requires merged[j] == chain[k] && Survives(d, chain[k], names, e)
    requires Link(d, chain, k)
    requires IsFullLike(chain[k].KindOf()) ==> names.Apply(NoArchive) == NoArchive && names.Apply(chain[k]) == chain[k]
    requires IsSmart(chain[k].KindOf()) ==>
               && 0 < j && 0 < k && Replay(e, merged, j - 1) == Replay(d, chain, k - 1)
               && names.Apply(chain[k - 1]) == merged[j - 1]
               && e.records[merged[j]].basedOn == e.records[merged[j - 1]].basedOn
    ensures Link(e, merged, j)
  {}

  /** The base recorded for a surviving Smart archive is still that of its predecessor. */
  lemma SameBase(d: Disk, chain: seq<ArchiveName>, t: nat, r: ChangeRecord, e: Disk, merged: seq<ArchiveName>, j: nat)
    requires Merging(d, chain, t, r, e, merged) && MergeOf(d, chain, t, r) && ReferencesFollow(chain, t)
    requires IsSmart(chain[t + 1].KindOf())
    requires 0 < j < |merged| && j != t && IsSmart(chain[OldIndex(t, j)].KindOf())
    ensures e.records[merged[j]].basedOn == e.records[merged[j - 1]].basedOn
  {
    var k := OldIndex(t, j);
    assert merged[j] == chain[k] && Survives(d, chain[k], MergeNames(chain, t), e);
    LinkBase(d, chain, k);
    if j - 1 == t {
      MergedRecordBase(d, chain, t, r);
    } else {
      assert merged[j - 1] == chain[k - 1] && Survives(d, chain[k - 1], MergeNames(chain, t), e);
    }
  }

  lemma LinkBase(d: Disk, chain: seq<ArchiveName>, k: nat)
    requires Links(d, chain) && k < |chain| && IsSmart(chain[k].KindOf())
    ensures 0 < k && d.records[chain[k]].basedOn == d.records[chain[k - 1]].basedOn
  {
    assert Link(d, chain, k);
  }

  /** The merged record keeps the base of its second half, except that a merged checkpoint is its own base. */
  lemma MergedRecordBase(d: Disk, chain: seq<ArchiveName>, t: nat, r: ChangeRecord)
    requires t + 1 < |chain| && Links(d, chain) && MergeOf(d, chain, t, r) && ReferencesFollow(chain, t)
    requires IsSmart(chain[t + 1].KindOf())
    ensures MergeNames(chain, t).Apply(r.basedOn) == MergeNames(chain, t).Apply(d.records[chain[t + 1]].basedOn)
  {
    assert Link(d, chain, t) && Link(d, chain, t + 1);
    BaseIsRoot(d, chain, t + 1);
  }

  lemma BaseIsRoot(d: Disk, chain: seq<ArchiveName>, i: nat)
    requires Links(d, chain) && i < |chain|
    ensures d.records[chain[i]].basedOn == chain[Root(d, chain, i)]
    ensures d.records[chain[i]].basedOn.Named?
  {
    var r := Root(d, chain, i);
    assert Link(d, chain, r);
  }

  lemma WalkIsSound(e: Disk, chain: seq<ArchiveName>, j: nat)
    requires ChainOk(e, chain) && j < |chain|
    ensures chain[j] in e.records && MetadataChain(e, chain[j], {}).Ok?
    ensures var walk := MetadataChain(e, chain[j], {}).value;
      && 0 < |walk| && walk[|walk| - 1] == chain[j]
      && IsFullLike(walk[0].KindOf())
      && e.records[chain[j]].basedOn == walk[0]
      && forall n | n in walk :: n in e.archives && n in e.records
  {
    WalkReachesRoot(e, chain, j, {});
    BaseIsRoot(e, chain, j);
  }

  /** A surviving Smart archive follows the same files as before. */
  lemma SurvivorReplay(d: Disk, chain: seq<ArchiveName>, t: nat, r: ChangeRecord, e: Disk, merged: seq<ArchiveName>, j: nat)
    requires Merging(d, chain, t, r, e, merged) && MergeOf(d, chain, t, r)
    requires IsSmart(chain[t + 1].KindOf()) && j < |merged| && j != t && IsSmart(chain[OldIndex(t, j)].KindOf())
    ensures var k := OldIndex(t, j); 0 < j && 0 < k && Replay(e, merged, j - 1) == Replay(d, chain, k - 1)
  {
    LinkBase(d, chain, OldIndex(t, j));
    PreviousIndex(t, j);
    MergedReplay(d, chain, t, r, e, merged, j - 1);
  }

  lemma PreviousIndex(t: nat, j: nat)
    requires j != t && 0 < OldIndex(t, j)
    ensures 0 < j && OldIndex(t, j - 1) == OldIndex(t, j) - 1
  {}

  /** The predecessor of a survivor is renamed to its predecessor in the merged chain. */
  lemma SurvivorBefore(chain: seq<ArchiveName>, t: nat, merged: seq<ArchiveName>, j: nat)
    requires t + 1 < |chain| && |merged| == |chain| - 1 && ReferencesFollow(chain, t)
    requires merged[t] == MergedName(chain, t)
    requires forall i | 0 <= i < |merged| && i != t :: merged[i] == chain[OldIndex(t, i)]
    requires 0 < j < |merged| && j != t
    ensures 0 < OldIndex(t, j) && MergeNames(chain, t).Apply(chain[OldIndex(t, j) - 1]) == merged[j - 1]
  {
    if j - 1 != t { assert merged[j - 1] == chain[OldIndex(t, j - 1)]; }
  }

  lemma SurvivorLink(d: Disk, chain: seq<ArchiveName>, t: nat, r: ChangeRecord, e: Disk, merged: seq<ArchiveName>, j: nat)
    requires Merging(d, chain, t, r, e, merged) && MergeOf(d, chain, t, r) && ReferencesFollow(chain, t)
    requires IsSmart(chain[t + 1].KindOf()) && j < |merged| && j != t
    ensures Link(e, merged, j)
  {
    var k := OldIndex(t, j);
    assert Link(d, chain, k);
    assert merged[j] == chain[k] && Survives(d, chain[k], MergeNames(chain, t), e);
    if IsSmart(chain[k].KindOf()) {
      SurvivorReplay(d, chain, t, r, e, merged, j);
      SameBase(d, chain, t, r, e, merged, j);
      SurvivorBefore(chain, t, merged, j);
    }
    SameLink(d, chain, k, e, merged, j, MergeNames(chain, t));
  }

  lemma MergedLink(d: Disk, chain: seq<ArchiveName>, t: nat, r: ChangeRecord, e: Disk, merged: seq<ArchiveName>)
    requires Merging(d, chain, t, r, e, merged) && MergeOf(d, chain, t, r) && ReferencesFollow(chain, t)
    requires IsSmart(chain[t + 1].KindOf())
    ensures Link(e, merged, t)
  {
    assert Link(d, chain, t) && Link(d, chain, t + 1);
    ReplayKeys(d, chain, t);
    var first, second := d.archives[chain[t]].files, d.archives[chain[t + 1]].files;
    var a, b := d.records[chain[t]].changes, d.records[chain[t + 1]].changes;
    if IsFullLike(chain[t].KindOf()) {
      MergeIntoCheckpoint(first, b, second);
    } else {
      ReplayBefore(d, chain, t, r, e, merged, t - 1);
      MergeIsSequencing(Replay(d, chain, t - 1), a, first, b, second);
      ComposeCorrect(a, b, Replay(d, chain, t - 1).Keys);
      assert merged[t - 1] == chain[OldIndex(t, t - 1)];
      MergedBase(d, chain, t, r, e);
    }
  }

  lemma MergedBase(d: Disk, chain: seq<ArchiveName>, t: nat, r: ChangeRecord, e: Disk)
    requires t + 1 < |chain| && Links(d, chain) && MergesTo(d, chain, t, r, e)
    requires MergeOf(d, chain, t, r) && 0 < t && IsSmart(chain[t].KindOf()) && IsSmart(chain[t + 1].KindOf())
    ensures e.records[MergedName(chain, t)].basedOn == e.records[chain[t - 1]].basedOn
  {
    assert Survives(d, chain[t - 1], MergeNames(chain, t), e);
    assert Link(d, chain, t) && Link(d, chain, t + 1);
    BaseIsRoot(d, chain, t + 1);
  }

  lemma MergeIsMerging(d: Disk, chain: seq<ArchiveName>, t: nat, now: string)
    requires Mergeable(d, chain, t)
    ensures Merging(d, chain, t, MergedRecord(d, chain, t, now), MergedDisk(d, chain, t, now), MergedChain(chain, t))
    ensures MergeOf(d, chain, t, MergedRecord(d, chain, t, now)) && ReferencesFollow(chain, t)
    ensures Distinct(MergedChain(chain, t))
  {
    MergedDiskMerges(d, chain, t, now);
    MergedShape(chain, t);
    MergedPresent(d, chain, t, MergedRecord(d, chain, t, now), MergedDisk(d, chain, t, now));
    MergedRecordIsMerge(d, chain, t, now);
    MergeRenames(d, chain, t);
  }

  lemma MergeReplays(d: Disk, chain: seq<ArchiveName>, t: nat, now: string, j: nat)
    requires Mergeable(d, chain, t) && j < |chain| - 1
    ensures Present(MergedDisk(d, chain, t, now), MergedChain(chain, t)) && |MergedChain(chain, t)| == |chain| - 1
    ensures Replay(MergedDisk(d, chain, t, now), MergedChain(chain, t), j) == Replay(d, chain, OldIndex(t, j))
  {
    MergeIsMerging(d, chain, t, now);
    MergedReplay(d, chain, t, MergedRecord(d, chain, t, now), MergedDisk(d, chain, t, now), MergedChain(chain, t), j);
  }

  /** Removing a link by merging it into its successor keeps the chain well formed and leaves the
      replayed files of every surviving archive, before or after the merge point, unchanged. */
  lemma MergeKeepsChain(d: Disk, chain: seq<ArchiveName>, t: nat, now: string)
    requires Mergeable(d, chain, t)
    ensures ChainOk(MergedDisk(d, chain, t, now), MergedChain(chain, t))
    ensures |MergedChain(chain, t)| == |chain| - 1
    ensures forall j | 0 <= j < |chain| - 1 ::
              Replay(MergedDisk(d, chain, t, now), MergedChain(chain, t), j) == Replay(d, chain, OldIndex(t, j))
  {
    MergeIsMerging(d, chain, t, now);
    MergingKeepsChain(d, chain, t, MergedRecord(d, chain, t, now), MergedDisk(d, chain, t, now), MergedChain(chain, t));
  }

  lemma MergingKeepsChain(d: Disk, chain: seq<ArchiveName>, t: nat, r: ChangeRecord, e: Disk, merged: seq<ArchiveName>)
    requires Merging(d, chain, t, r, e, merged) && MergeOf(d, chain, t, r) && ReferencesFollow(chain, t)
    requires IsSmart(chain[t + 1].KindOf())
    ensures Links(e, merged)
    ensures forall j | 0 <= j < |merged| :: Replay(e, merged, j) == Replay(d, chain, OldIndex(t, j))
  {
    forall j | 0 <= j < |merged|
      ensures Link(e, merged, j)
      ensures Replay(e, merged, j) == Replay(d, chain, OldIndex(t, j))
    {
      MergedReplay(d, chain, t, r, e, merged, j);
      if j == t { MergedLink(d, chain, t, r, e, merged); } else { SurvivorLink(d, chain, t, r, e, merged, j); }
    }
  }
}
