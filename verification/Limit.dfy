/** The limit on Smart archives per checkpoint over runs of successful operations, as the program
    counts them and as they are. */
module Limit {
  import opened Names
  import opened Ordering
  import opened Delta
  import opened Chain
  import opened Repair
  import opened History
  import opened Removal
  import opened Scan
  import opened Vault
  import opened Backup
  import opened Backups
  import opened Runs

  /** No stretch of names that read Smart is longer than the limit. */
  ghost predicate Bounded(chain: seq<ArchiveName>, n: nat)
  {
    forall i | 0 <= i <= |chain| :: SmartRun(chain[..i]) <= n
  }

  /** The directory holds the chain and nothing else, and file times grow along it. */
  ghost predicate Tidy(d: Disk, chain: seq<ArchiveName>)
  {
    && d.archives.Keys == Elems(chain)
    && forall i, j | 0 <= i < j < |chain| && chain[i] in d.archives && chain[j] in d.archives ::
         d.archives[chain[i]].time < d.archives[chain[j]].time
  }

  ghost predicate LimitInv(site: Site, w: World, n: nat)
  {
    Inv(site, w) && Tidy(w.disk, ChainOf(site, w)) && Bounded(ChainOf(site, w), n)
  }

  // ---- the listing in time order is the chain ----

  ghost predicate Timed(time: map<ArchiveName, int>, s: seq<ArchiveName>) { forall x | x in s :: x in time }

  /** In order of time; `strictly` excludes equal times. */
  ghost predicate Ascends(time: map<ArchiveName, int>, s: seq<ArchiveName>, strictly: bool)
    requires Timed(time, s)
  {
    forall i, j | 0 <= i < j < |s| :: if strictly then time[s[i]] < time[s[j]] else time[s[i]] <= time[s[j]]
  }

  lemma LastIsLatest(time: map<ArchiveName, int>, s: seq<ArchiveName>, strictly: bool, x: ArchiveName)
    requires s != [] && Timed(time, s) && Ascends(time, s, strictly) && x in s
    ensures time[x] <= time[s[|s| - 1]]
    ensures strictly && x != s[|s| - 1] ==> time[x] < time[s[|s| - 1]]
  {
    var i :| 0 <= i < |s| && s[i] == x;
    if i < |s| - 1 { assert if strictly then time[s[i]] < time[s[|s| - 1]] else time[s[i]] <= time[s[|s| - 1]]; }
  }

  lemma SameLast(time: map<ArchiveName, int>, a: seq<ArchiveName>, b: seq<ArchiveName>)
    requires Elems(a) == Elems(b) && Timed(time, a) && Timed(time, b) && a != []
    requires Ascends(time, a, true) && Ascends(time, b, false)
    ensures b != [] && a[|a| - 1] == b[|b| - 1]
  {
    var x := a[|a| - 1];
    assert x in Elems(b);
    var y := b[|b| - 1];
    assert y in Elems(a);
    LastIsLatest(time, b, false, x);
    LastIsLatest(time, a, true, y);
  }

  lemma FrontAscends(time: map<ArchiveName, int>, s: seq<ArchiveName>, strictly: bool)
    requires s != [] && Timed(time, s) && Ascends(time, s, strictly)
    ensures Timed(time, s[..|s| - 1]) && Ascends(time, s[..|s| - 1], strictly)
  {
    var front := s[..|s| - 1];
    forall x | x in front ensures x in time { assert x in s; }
    forall i, j | 0 <= i < j < |front|
      ensures if strictly then time[front[i]] < time[front[j]] else time[front[i]] <= time[front[j]]
    {
      assert front[i] == s[i] && front[j] == s[j];
    }
  }

  lemma FrontDistinct(s: seq<ArchiveName>)
    requires s != [] && Distinct(s)
    ensures Distinct(s[..|s| - 1])
  {
  }

  lemma {:induction false} TimeOrderUnique(time: map<ArchiveName, int>, a: seq<ArchiveName>, b: seq<ArchiveName>)
    requires Elems(a) == Elems(b) && Distinct(a) && Distinct(b) && Timed(time, a) && Timed(time, b)
    requires Ascends(time, a, true) && Ascends(time, b, false)
    ensures a == b
  {
    if a == [] {
      NoElems(b);
    } else {
      SameLast(time, a, b);
      FrontElems(a);
      FrontElems(b);
      FrontDistinct(a);
      FrontDistinct(b);
      FrontAscends(time, a, true);
      FrontAscends(time, b, false);
      TimeOrderUnique(time, a[..|a| - 1], b[..|b| - 1]);
      assert a == a[..|a| - 1] + [a[|a| - 1]] && b == b[..|b| - 1] + [b[|b| - 1]];
    }
  }

  lemma FrontElems(a: seq<ArchiveName>)
    requires a != [] && Distinct(a)
    ensures Elems(a[..|a| - 1]) == Elems(a) - {a[|a| - 1]}
  {
    var x, front := a[|a| - 1], a[..|a| - 1];
    assert a == front + [x];
    forall y | y in a && y != x ensures y in front {
      var k :| 0 <= k < |a| && a[k] == y;
      assert front[k] == y;
    }
  }

  lemma ListingIsChain(d: Disk, chain: seq<ArchiveName>, order: seq<ArchiveName>)
    requires Tidy(d, chain) && Distinct(chain) && TimeListing(d.archives, order)
    ensures order == chain
  {
    var time := map n | n in d.archives :: d.archives[n].time;
    assert forall x | x in chain :: x in Elems(chain);
    assert forall x | x in order :: x in Elems(order);
    assert Timed(time, chain) && Timed(time, order);
    assert Ascends(time, chain, true) && Ascends(time, order, false);
    TimeOrderUnique(time, chain, order);
  }

  // ---- a created backup ----

  lemma RunAppends(chain: seq<ArchiveName>, n: ArchiveName)
    ensures SmartRun(chain + [n]) == if ReadsFullLike(n) then 0 else SmartRun(chain) + if ReadsSmart(n) then 1 else 0
  {
    assert (chain + [n])[..|chain|] == chain;
  }

  lemma AppendBounded(chain: seq<ArchiveName>, m: ArchiveName, n: nat)
    requires Bounded(chain, n) && (ReadsFullLike(m) || SmartRun(chain) < n)
    ensures Bounded(chain + [m], n)
  {
    assert SmartRun(chain[..|chain|]) <= n && chain[..|chain|] == chain;
    RunAppends(chain, m);
    forall i | 0 <= i <= |chain| + 1 ensures SmartRun((chain + [m])[..i]) <= n {
      if i <= |chain| {
        assert (chain + [m])[..i] == chain[..i];
      } else {
        assert (chain + [m])[..i] == chain + [m];
      }
    }
  }

  lemma AppendTidy(w: World, chain: seq<ArchiveName>, b: NewBackup)
    requires Tidy(w.disk, chain) && b.name !in w.disk.archives
    requires forall n | n in w.disk.archives :: w.disk.archives[n].time < b.archive.time
    ensures Tidy(Committed(w, b).disk, chain + [b.name])
  {
    assert Elems(chain + [b.name]) == Elems(chain) + {b.name};
    assert forall x | x in chain :: x in Elems(chain);
  }

  /** A created backup keeps the limit, whatever its mode, if its file is newer than all others. */
  lemma CreatedKeepsLimit(site: Site, cfg: BackupConfig, w: World, source: Source, order: seq<ArchiveName>,
                          migration: bool, stamp: Stamp)
    requires cfg.maxSmart > 0 && LimitInv(site, w, cfg.maxSmart) && GoodInputs(site, w, order, stamp)
    requires forall n | n in w.disk.archives :: w.disk.archives[n].time < stamp.time
    requires DecisionFor(site, cfg, w.disk, source, order, migration).Make?
    ensures LimitInv(site, Committed(w, BackupFor(site, cfg, w.disk, source, order, migration, stamp)), cfg.maxSmart)
  {
    var chain := ChainOf(site, w);
    var b := BackupFor(site, cfg, w.disk, source, order, migration, stamp);
    RunsBackupFits(site, cfg, w, source, order, migration, stamp);
    FittingKeepsInv(site, w, b);
    NameIsFree(w.disk, b.name);
    AppendTidy(w, chain, b);
    ListingIsChain(w.disk, chain, order);
    if IsSmart(b.name.KindOf()) {
      SmartNeedsBase(site, cfg, w.disk, source, order, migration);
    } else {
      CheckpointTakesAll(site, cfg, w.disk, source, order, migration);
    }
    AppendBounded(chain, b.name, cfg.maxSmart);
  }

  // ---- a removal ----

  /** Stretches of Smart archives never grow when one archive is dropped or merged away. */
  ghost predicate Shorter(chain: seq<ArchiveName>, t: nat, rest: seq<ArchiveName>)
  {
    && t < |chain| && |rest| == |chain| - 1
    && (forall j | 0 <= j < |rest| && j != t :: rest[j] == chain[OldIndex(t, j)])
    && (t < |rest| ==> ReadsFullLike(rest[t]) || (rest[t] == chain[t + 1] && !ReadsFullLike(chain[t])))
  }

  lemma {:induction false} RunsShrink(chain: seq<ArchiveName>, t: nat, rest: seq<ArchiveName>, i: nat)
    requires Shorter(chain, t, rest) && i <= |rest|
    ensures SmartRun(rest[..i]) <= SmartRun(chain[..if i <= t then i else i + 1])
  {
    if i > 0 {
      RunsShrink(chain, t, rest, i - 1);
      assert rest[..i][..i - 1] == rest[..i - 1];
      if i <= t {
        assert chain[..i][..i - 1] == chain[..i - 1];
        assert rest[i - 1] == chain[OldIndex(t, i - 1)];
      } else {
        assert chain[..i + 1][..i] == chain[..i];
        if i - 1 == t {
          assert chain[..t + 1][..t] == chain[..t];
        } else {
          assert rest[i - 1] == chain[OldIndex(t, i - 1)];
        }
      }
    }
  }

  lemma ShorterBounded(chain: seq<ArchiveName>, t: nat, rest: seq<ArchiveName>, n: nat)
    requires Shorter(chain, t, rest) && Bounded(chain, n)
    ensures Bounded(rest, n)
  {
    forall i | 0 <= i <= |rest| ensures SmartRun(rest[..i]) <= n {
      RunsShrink(chain, t, rest, i);
      assert SmartRun(chain[..if i <= t then i else i + 1]) <= n;
    }
  }

  lemma MergedShorter(d: Disk, chain: seq<ArchiveName>, t: nat)
    requires Mergeable(d, chain, t)
    ensures Shorter(chain, t, MergedChain(chain, t))
  {
    MergedShape(chain, t);
    ReadsAsItIs(d, chain, t);
  }

  lemma DroppedShorter(chain: seq<ArchiveName>, t: nat)
    requires t < |chain| && !MergesNext(chain, t)
    ensures Shorter(chain, t, DroppedChain(chain, t))
  {}

  /** Dropping a position keeps file times growing. */
  lemma TidyRest(d: Disk, chain: seq<ArchiveName>, t: nat, e: Disk, rest: seq<ArchiveName>)
    requires Tidy(d, chain) && |rest| == |chain| - 1 && e.archives.Keys == Elems(rest)
    requires forall j | 0 <= j < |rest| ::
               && chain[OldIndex(t, j)] in d.archives && rest[j] in e.archives
               && e.archives[rest[j]].time == d.archives[chain[OldIndex(t, j)]].time
    ensures Tidy(e, rest)
  {
    forall i, j | 0 <= i < j < |rest| ensures e.archives[rest[i]].time < e.archives[rest[j]].time {
      assert OldIndex(t, i) < OldIndex(t, j);
    }
  }

  lemma MergedKeys(chain: seq<ArchiveName>, t: nat)
    requires t + 1 < |chain| && Distinct(chain)
    ensures Elems(MergedChain(chain, t)) == Elems(chain) - {chain[t], chain[t + 1]} + {MergedName(chain, t)}
  {
    MergedShape(chain, t);
    var rest := MergedChain(chain, t);
    forall n | n in chain && n != chain[t] && n != chain[t + 1] ensures n in rest {
      var k :| 0 <= k < |chain| && chain[k] == n;
      assert rest[if k < t then k else k - 1] == n;
    }
    forall n | n in rest && n != MergedName(chain, t)
      ensures n in chain && n != chain[t] && n != chain[t + 1]
    {
      var j :| 0 <= j < |rest| && rest[j] == n;
      assert rest[j] == chain[OldIndex(t, j)];
    }
    assert rest[t] in rest;
  }

  lemma DroppedKeys(chain: seq<ArchiveName>, t: nat)
    requires t < |chain| && Distinct(chain)
    ensures Elems(DroppedChain(chain, t)) == Elems(chain) - {chain[t]}
  {
    var rest := DroppedChain(chain, t);
    forall n | n in chain && n != chain[t] ensures n in rest {
      var k :| 0 <= k < |chain| && chain[k] == n;
      assert rest[if k < t then k else k - 1] == n;
    }
    forall n | n in rest ensures n in chain && n != chain[t] {
      var j :| 0 <= j < |rest| && rest[j] == n;
      assert rest[j] == chain[OldIndex(t, j)];
    }
  }

  lemma MergedTimes(d: Disk, chain: seq<ArchiveName>, t: nat, now: string, j: nat)
    requires Mergeable(d, chain, t) && j < |chain| - 1
    ensures |MergedChain(chain, t)| == |chain| - 1
    ensures var e, n := MergedDisk(d, chain, t, now), MergedChain(chain, t)[j];
      n in e.archives && e.archives[n].time == d.archives[chain[OldIndex(t, j)]].time
  {
    MergedShape(chain, t);
    MergeIsMerging(d, chain, t, now);
    if j == t {
      assert chain[t] in InPlay(d);
      FinalIsFresh(d, chain, t, chain[t]);
    } else {
      assert Survives(d, chain[OldIndex(t, j)], MergeNames(chain, t), MergedDisk(d, chain, t, now));
    }
  }

  lemma MergedArchiveKeys(d: Disk, chain: seq<ArchiveName>, t: nat, now: string)
    requires Mergeable(d, chain, t)
    ensures MergedDisk(d, chain, t, now).archives.Keys
         == d.archives.Keys - {chain[t], chain[t + 1]} + {MergedName(chain, t)}
  {
    assert chain[t] in InPlay(d) && chain[t] != chain[t + 1];
    FinalIsFresh(d, chain, t, chain[t]);
  }

  lemma MergedTidy(d: Disk, chain: seq<ArchiveName>, t: nat, now: string)
    requires Mergeable(d, chain, t) && Tidy(d, chain)
    ensures Tidy(MergedDisk(d, chain, t, now), MergedChain(chain, t))
  {
    var e, rest := MergedDisk(d, chain, t, now), MergedChain(chain, t);
    MergedShape(chain, t);
    MergedKeys(chain, t);
    MergedArchiveKeys(d, chain, t, now);
    forall j | 0 <= j < |rest|
      ensures chain[OldIndex(t, j)] in d.archives && rest[j] in e.archives
      ensures e.archives[rest[j]].time == d.archives[chain[OldIndex(t, j)]].time
    {
      MergedTimes(d, chain, t, now, j);
    }
    TidyRest(d, chain, t, e, rest);
  }

  lemma DroppedTidy(d: Disk, chain: seq<ArchiveName>, t: nat)
    requires ChainOk(d, chain) && Droppable(chain, t) && Tidy(d, chain)
    ensures Tidy(DroppedDisk(d, chain[t]), DroppedChain(chain, t))
  {
    DroppedKeys(chain, t);
    DroppedDiskDrops(d, chain, t);
    TidyRest(d, chain, t, DroppedDisk(d, chain[t]), DroppedChain(chain, t));
  }

  /** A successful removal that is not misled keeps the limit. */
  lemma RemoveKeepsLimit(site: Site, w: World, t: nat, now: string, n: nat)
    requires LimitInv(site, w, n) && Removable(site, w, t) && !Misleads(ChainOf(site, w), t)
    ensures LimitInv(site, AfterRemove(site, w, t, now), n)
  {
    var chain := ChainOf(site, w);
    RemovableCases(site, w, t);
    RemoveKeepsInv(site, w, t, now);
    if MergesNext(chain, t) {
      MergedShorter(w.disk, chain, t);
      ShorterBounded(chain, t, MergedChain(chain, t), n);
      MergedTidy(w.disk, chain, t, now);
    } else {
      DroppedShorter(chain, t);
      ShorterBounded(chain, t, DroppedChain(chain, t), n);
      DroppedTidy(w.disk, chain, t);
    }
  }

  // ---- runs of successful operations ----

  ghost predicate CreatesNext(site: Site, w: World, x: World, cfg: BackupConfig, source: Source,
                              order: seq<ArchiveName>, migration: bool, stamp: Stamp)
  {
    && GoodInputs(site, w, order, stamp)
    && (forall m | m in w.disk.archives :: w.disk.archives[m].time < stamp.time)
    && DecisionFor(site, cfg, w.disk, source, order, migration).Make?
    && x == Committed(w, BackupFor(site, cfg, w.disk, source, order, migration, stamp))
  }

  ghost predicate RemovesNext(site: Site, w: World, x: World, t: nat, now: string)
  {
    Inv(site, w) && Removable(site, w, t) && !Misleads(ChainOf(site, w), t) && x == AfterRemove(site, w, t, now)
  }

  ghost predicate LimitedNext(site: Site, w: World, x: World, n: nat)
  {
    || (exists cfg: BackupConfig, source, order, migration, stamp ::
          cfg.maxSmart == n && CreatesNext(site, w, x, cfg, source, order, migration, stamp))
    || (exists t: nat, now :: RemovesNext(site, w, x, t, now))
  }

  ghost predicate LimitedRun(site: Site, ws: seq<World>, n: nat)
  {
    && ws != [] && Start(site, ws[0])
    && forall i | 0 <= i < |ws| - 1 :: LimitedNext(site, ws[i], ws[i + 1], n)
  }

  lemma LimitedNextKeepsLimit(site: Site, w: World, x: World, n: nat)
    requires n > 0 && LimitInv(site, w, n) && LimitedNext(site, w, x, n)
    ensures LimitInv(site, x, n)
  {
    if cfg: BackupConfig, source, order, migration, stamp :|
      cfg.maxSmart == n && CreatesNext(site, w, x, cfg, source, order, migration, stamp)
    {
      CreatedKeepsLimit(site, cfg, w, source, order, migration, stamp);
    } else {
      var t: nat, now :| RemovesNext(site, w, x, t, now);
      RemoveKeepsLimit(site, w, t, now, n);
    }
  }

  lemma {:induction false} LimitedRunKeepsLimit(site: Site, ws: seq<World>, n: nat, i: nat)
    requires n > 0 && LimitedRun(site, ws, n) && i < |ws|
    ensures LimitInv(site, ws[i], n)
  {
    if i > 0 {
      LimitedRunKeepsLimit(site, ws, n, i - 1);
      assert LimitedNext(site, ws[i - 1], ws[i - 1 + 1], n);
      LimitedNextKeepsLimit(site, ws[i - 1], ws[i], n);
    }
  }

  // ---- counting by type ----

  /** Smart archives, by type, after the last checkpoint. */
  function SmartDepth(order: seq<ArchiveName>): nat
  {
    if order == [] || IsFullLike(order[|order| - 1].KindOf()) then 0
    else SmartDepth(order[..|order| - 1]) + if IsSmart(order[|order| - 1].KindOf()) then 1 else 0
  }

  /** One of the Smart archives after the last checkpoint reads full-like. */
  predicate TailMisread(order: seq<ArchiveName>)
  {
    && order != [] && !IsFullLike(order[|order| - 1].KindOf())
    && (ReadsFullLike(order[|order| - 1]) || TailMisread(order[..|order| - 1]))
  }

  /** The program's count never exceeds the true one, and equals it exactly when no Smart archive
      after the last checkpoint reads full-like. */
  lemma {:induction false} RunIsDepth(order: seq<ArchiveName>)
    requires forall i | 0 <= i < |order| :: IsSmart(order[i].KindOf()) || IsFullLike(order[i].KindOf())
    ensures SmartRun(order) <= SmartDepth(order)
    ensures SmartRun(order) == SmartDepth(order) <==> !TailMisread(order)
  {
    if order != [] { RunIsDepth(order[..|order| - 1]); }
  }

  /** With a fixed limit n > 0, what the program counts over the directory in time order never exceeds
      n in any state of any run of successful operations; nor does the true number of Smart archives
      after the newest checkpoint, unless one of them reads full-like. */
  lemma LimitHolds(site: Site, ws: seq<World>, n: nat, i: nat, order: seq<ArchiveName>)
    requires n > 0 && LimitedRun(site, ws, n) && i < |ws| && TimeListing(ws[i].disk.archives, order)
    ensures SmartRun(order) <= n
    ensures !TailMisread(order) ==> SmartDepth(order) <= n
  {
    LimitedRunKeepsLimit(site, ws, n, i);
    ListingIsChain(ws[i].disk, ChainOf(site, ws[i]), order);
    BoundedDepth(ws[i].disk, order, n);
  }

  lemma BoundedDepth(d: Disk, chain: seq<ArchiveName>, n: nat)
    requires ChainOk(d, chain) && Bounded(chain, n)
    ensures SmartRun(chain) <= n
    ensures !TailMisread(chain) ==> SmartDepth(chain) <= n
  {
    assert SmartRun(chain[..|chain|]) <= n && chain[..|chain|] == chain;
    forall k | 0 <= k < |chain| ensures IsSmart(chain[k].KindOf()) || IsFullLike(chain[k].KindOf()) {
      assert Link(d, chain, k);
    }
    RunIsDepth(chain);
  }
}
