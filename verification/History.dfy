/** History entries, the world they belong to, and the atomic batch that removes and renames them. */
module History {
  import opened Names

  datatype HistoryEntry = HistoryEntry(
    configId: string,
    timestamp: string,
    worldPath: string,
    worldName: string,
    backupFile: ArchiveName,
    backupType: Kind,
    isPartialBackup: bool,
    comment: string,
    isImportant: bool,
    isCloudArchived: bool,
    cloudArchivedAtUtc: string,
    cloudArchiveRemotePath: string,
    cloudMetadataRecordRemotePath: string,
    cloudMetadataStateRemotePath: string)

  /** A configuration and the identity it gives to a recorded world path and name. */
  datatype Scope = Scope(configId: string, worldOf: (string, string) -> string)
  {
    function World(e: HistoryEntry): string { worldOf(e.worldPath, e.worldName) }

    predicate IsSame(a: HistoryEntry, b: HistoryEntry)
    {
      a.configId == configId && b.configId == configId && a.backupFile == b.backupFile && World(a) == World(b)
    }
  }

  predicate SpelledAlike(a: HistoryEntry, b: HistoryEntry)
  {
    a.configId == b.configId && a.worldName == b.worldName && a.worldPath == b.worldPath
  }

  datatype HistoryRename = HistoryRename(expected: HistoryEntry, backupFile: ArchiveName, backupType: Kind)
  {
    function Collision(): HistoryEntry { expected.(backupFile := backupFile) }
    predicate Moves() { backupFile != expected.backupFile }
  }

  datatype HistoryChanges = HistoryChanges(deletions: seq<HistoryEntry>, renames: seq<HistoryRename>)

  ghost predicate LocatedAt(scope: Scope, latest: seq<HistoryEntry>, expected: HistoryEntry, i: int)
  {
    && 0 <= i < |latest|
    && scope.IsSame(latest[i], expected)
    && SpelledAlike(latest[i], expected)
    && forall j | 0 <= j < |latest| && j != i :: !scope.IsSame(latest[j], expected)
  }

  ghost function Located(scope: Scope, latest: seq<HistoryEntry>, expected: HistoryEntry): Option<int>
    ensures Located(scope, latest, expected).Some? ==> LocatedAt(scope, latest, expected, Located(scope, latest, expected).value)
  {
    if exists i :: LocatedAt(scope, latest, expected, i) then
      var i :| LocatedAt(scope, latest, expected, i); Some(i)
    else None
  }

  method Locate(scope: Scope, latest: seq<HistoryEntry>, expected: HistoryEntry) returns (found: Option<int>)
    ensures found == Located(scope, latest, expected)
  {
    found := None;
    for i := 0 to |latest|
      invariant found.None? ==> forall j | 0 <= j < i :: !scope.IsSame(latest[j], expected)
      invariant found.Some? ==>
                  && 0 <= found.value < i
                  && scope.IsSame(latest[found.value], expected)
                  && SpelledAlike(latest[found.value], expected)
                  && forall j | 0 <= j < i && j != found.value :: !scope.IsSame(latest[j], expected)
    {
      if scope.IsSame(latest[i], expected) {
        if found.Some? || !SpelledAlike(latest[i], expected) {
          return None;
        }
        found := Some(i);
      }
    }
    if found.Some? { assert LocatedAt(scope, latest, expected, found.value); }
  }

  /** What the batch demands of the latest list before it touches anything. */
  ghost predicate Accepts(scope: Scope, latest: seq<HistoryEntry>, changes: HistoryChanges)
  {
    && (forall d | d in changes.deletions :: Deletable(scope, latest, d))
    && (forall r | r in changes.renames :: Renamable(scope, latest, r))
  }

  ghost function RenamedInPlace(scope: Scope, latest: seq<HistoryEntry>, renames: seq<HistoryRename>): (r: seq<HistoryEntry>)
    ensures |r| == |latest|
  {
    if renames == [] then latest
    else
      var done := RenamedInPlace(scope, latest, renames[..|renames| - 1]);
      var last := renames[|renames| - 1];
      var at := Located(scope, latest, last.expected);
      if at.None? then done
      else done[at.value := done[at.value].(backupFile := last.backupFile, backupType := last.backupType)]
  }

  predicate NamedIn(scope: Scope, entry: HistoryEntry, deletions: seq<HistoryEntry>)
  {
    exists d | d in deletions :: scope.IsSame(entry, d)
  }

  function Undeleted(scope: Scope, entries: seq<HistoryEntry>, deletions: seq<HistoryEntry>): seq<HistoryEntry>
  {
    if entries == [] then []
    else
      var last := entries[|entries| - 1];
      Undeleted(scope, entries[..|entries| - 1], deletions) + if NamedIn(scope, last, deletions) then [] else [last]
  }

  ghost predicate Deletable(scope: Scope, latest: seq<HistoryEntry>, d: HistoryEntry)
  {
    Located(scope, latest, d).Some? && !latest[Located(scope, latest, d).value].isImportant
  }

  ghost predicate Renamable(scope: Scope, latest: seq<HistoryEntry>, r: HistoryRename)
  {
    && Located(scope, latest, r.expected).Some?
    && (r.Moves() ==> Located(scope, latest, r.Collision()).None?)
  }

  method CheckDeletions(scope: Scope, latest: seq<HistoryEntry>, deletions: seq<HistoryEntry>) returns (ok: bool)
    ensures ok <==> forall d | d in deletions :: Deletable(scope, latest, d)
  {
    for k := 0 to |deletions|
      invariant forall j | 0 <= j < k :: Deletable(scope, latest, deletions[j])
    {
      var at := Locate(scope, latest, deletions[k]);
      if at.None? || latest[at.value].isImportant {
        assert !Deletable(scope, latest, deletions[k]);
        return false;
      }
    }
    ok := true;
  }

  method CheckRenames(scope: Scope, latest: seq<HistoryEntry>, renames: seq<HistoryRename>) returns (ok: bool)
    ensures ok <==> forall r | r in renames :: Renamable(scope, latest, r)
  {
    for k := 0 to |renames|
      invariant forall j | 0 <= j < k :: Renamable(scope, latest, renames[j])
    {
      var at := Locate(scope, latest, renames[k].expected);
      if at.None? {
        assert !Renamable(scope, latest, renames[k]);
        return false;
      }
      if renames[k].Moves() {
        var taken := Locate(scope, latest, renames[k].Collision());
        if taken.Some? {
          assert !Renamable(scope, latest, renames[k]);
          return false;
        }
      }
    }
    ok := true;
  }

  method RenameEntries(scope: Scope, latest: seq<HistoryEntry>, renames: seq<HistoryRename>) returns (next: seq<HistoryEntry>)
    requires forall r | r in renames :: Renamable(scope, latest, r)
    ensures next == RenamedInPlace(scope, latest, renames)
  {
    next := latest;
    for k := 0 to |renames|
      invariant next == RenamedInPlace(scope, latest, renames[..k])
    {
      var r := renames[k];
      assert Renamable(scope, latest, r);
      assert renames[..k + 1][..k] == renames[..k];
      var at := Locate(scope, latest, r.expected);
      next := next[at.value := next[at.value].(backupFile := r.backupFile, backupType := r.backupType)];
    }
    assert renames[..|renames|] == renames;
  }

  method EraseNamed(scope: Scope, entries: seq<HistoryEntry>, deletions: seq<HistoryEntry>) returns (kept: seq<HistoryEntry>)
    ensures kept == Undeleted(scope, entries, deletions)
  {
    kept := [];
    for k := 0 to |entries|
      invariant kept == Undeleted(scope, entries[..k], deletions)
    {
      assert entries[..k + 1][..k] == entries[..k];
      if !NamedIn(scope, entries[k], deletions) { kept := kept + [entries[k]]; }
    }
    assert entries[..|entries|] == entries;
  }

  method ApplyHistoryChanges(scope: Scope, latest: seq<HistoryEntry>, changes: HistoryChanges)
    returns (ok: bool, next: seq<HistoryEntry>)
    ensures ok <==> Accepts(scope, latest, changes)
    ensures next == if ok then Undeleted(scope, RenamedInPlace(scope, latest, changes.renames), changes.deletions) else latest
  {
    next := latest;
    ok := CheckDeletions(scope, latest, changes.deletions);
    if !ok { return; }
    ok := CheckRenames(scope, latest, changes.renames);
    if !ok { return; }
    next := RenameEntries(scope, latest, changes.renames);
    next := EraseNamed(scope, next, changes.deletions);
  }

  // ---- what an accepted batch does ----

  ghost predicate UniqueIdentities(scope: Scope, entries: seq<HistoryEntry>)
  {
    forall i, j | 0 <= i < j < |entries| :: !scope.IsSame(entries[i], entries[j])
  }

  /** Deletions and renames name different entries, renames name different entries, and no two
      renames end on the same identity. */
  ghost predicate WellFormed(scope: Scope, changes: HistoryChanges)
  {
    && (forall d, r | d in changes.deletions && r in changes.renames :: !scope.IsSame(d, r.expected))
    && (forall i, j | 0 <= i < j < |changes.renames| ::
          && !scope.IsSame(changes.renames[i].expected, changes.renames[j].expected)
          && !scope.IsSame(changes.renames[i].Collision(), changes.renames[j].Collision()))
  }

  predicate Renames(scope: Scope, r: HistoryRename, e: HistoryEntry) { scope.IsSame(e, r.expected) }

  function Rewrite(scope: Scope, renames: seq<HistoryRename>, e: HistoryEntry): HistoryEntry
  {
    if renames == [] then e
    else if Renames(scope, renames[|renames| - 1], e) then
      e.(backupFile := renames[|renames| - 1].backupFile, backupType := renames[|renames| - 1].backupType)
    else Rewrite(scope, renames[..|renames| - 1], e)
  }

  /** The intended effect: drop exactly the named entries, rewrite file and type of the renamed
      ones, keep everything else and the order. */
  function Intended(scope: Scope, entries: seq<HistoryEntry>, changes: HistoryChanges): seq<HistoryEntry>
  {
    if entries == [] then []
    else
      var last := entries[|entries| - 1];
      Intended(scope, entries[..|entries| - 1], changes)
      + if NamedIn(scope, last, changes.deletions) then [] else [Rewrite(scope, changes.renames, last)]
  }

  /** An entry of the target identity that the collision test overlooks (it is spelled with another
      world name or path) and that no rename moves out of the way. */
  ghost predicate HiddenCollision(scope: Scope, latest: seq<HistoryEntry>, changes: HistoryChanges)
  {
    exists r, e | r in changes.renames && e in latest ::
      r.Moves() && scope.IsSame(e, r.Collision()) && !MovedAway(scope, changes.renames, e)
  }

  ghost predicate MovedAway(scope: Scope, renames: seq<HistoryRename>, e: HistoryEntry)
  {
    exists r | r in renames :: r.Moves() && Renames(scope, r, e)
  }

  /** The deletion filter runs after the renames; it is exact when it removes a rewritten entry
      just in case the entry itself was named. */
  ghost predicate ExactRemoval(scope: Scope, latest: seq<HistoryEntry>, changes: HistoryChanges)
  {
    forall e | e in latest ::
      NamedIn(scope, Rewrite(scope, changes.renames, e), changes.deletions) <==> NamedIn(scope, e, changes.deletions)
  }

  ghost predicate UniqueAfter(scope: Scope, latest: seq<HistoryEntry>, changes: HistoryChanges)
  {
    forall i, j | 0 <= i < j < |latest|
      && !NamedIn(scope, latest[i], changes.deletions) && !NamedIn(scope, latest[j], changes.deletions) ::
      !scope.IsSame(Rewrite(scope, changes.renames, latest[i]), Rewrite(scope, changes.renames, latest[j]))
  }

  lemma {:induction false} RewriteAs(scope: Scope, renames: seq<HistoryRename>, e: HistoryEntry, k: nat)
    requires k < |renames| && Renames(scope, renames[k], e)
    requires forall i, j | 0 <= i < j < |renames| :: !scope.IsSame(renames[i].expected, renames[j].expected)
    ensures Rewrite(scope, renames, e) == e.(backupFile := renames[k].backupFile, backupType := renames[k].backupType)
  {
    var last := |renames| - 1;
    if k < last {
      assert !scope.IsSame(renames[k].expected, renames[last].expected);
      assert renames[..last][k] == renames[k];
      RewriteAs(scope, renames[..last], e, k);
    }
  }

  lemma {:induction false} RewriteNone(scope: Scope, renames: seq<HistoryRename>, e: HistoryEntry)
    requires forall r | r in renames :: !Renames(scope, r, e)
    ensures Rewrite(scope, renames, e) == e
  {
    if renames != [] {
      assert renames[|renames| - 1] in renames;
      RewriteNone(scope, renames[..|renames| - 1], e);
    }
  }

  lemma {:induction false} RewriteKeepsRest(scope: Scope, renames: seq<HistoryRename>, e: HistoryEntry)
    ensures var w := Rewrite(scope, renames, e); w.(backupFile := e.backupFile, backupType := e.backupType) == e
  {
    if renames != [] { RewriteKeepsRest(scope, renames[..|renames| - 1], e); }
  }

  /** Renaming by located position is renaming by identity. */
  lemma {:induction false} RenamedPointwise(scope: Scope, latest: seq<HistoryEntry>, renames: seq<HistoryRename>, i: nat)
    requires i < |latest|
    requires forall r | r in renames :: Located(scope, latest, r.expected).Some?
    ensures RenamedInPlace(scope, latest, renames)[i] == Rewrite(scope, renames, latest[i])
  {
    if renames != [] {
      var front, last := renames[..|renames| - 1], renames[|renames| - 1];
      RenamedPointwise(scope, latest, front, i);
      RewriteKeepsRest(scope, front, latest[i]);
      assert last in renames;
      var at := Located(scope, latest, last.expected).value;
      assert LocatedAt(scope, latest, last.expected, at);
      assert Renames(scope, last, latest[i]) <==> i == at;
    }
  }

  lemma {:induction false} ExactRemovalGivesIntended(scope: Scope, latest: seq<HistoryEntry>, changes: HistoryChanges,
                                                     renamed: seq<HistoryEntry>)
    requires |renamed| == |latest|
    requires forall i | 0 <= i < |latest| :: renamed[i] == Rewrite(scope, changes.renames, latest[i])
    requires ExactRemoval(scope, latest, changes)
    ensures Undeleted(scope, renamed, changes.deletions) == Intended(scope, latest, changes)
  {
    if latest != [] {
      var n := |latest| - 1;
      forall e | e in latest[..n]
        ensures NamedIn(scope, Rewrite(scope, changes.renames, e), changes.deletions) <==> NamedIn(scope, e, changes.deletions)
      {
        assert e in latest;
      }
      ExactRemovalGivesIntended(scope, latest[..n], changes, renamed[..n]);
      assert latest[n] in latest;
    }
  }

  /** How a rewritten entry compares with the batch: it is unmoved, or one rename moved it. */
  lemma RewriteCases(scope: Scope, changes: HistoryChanges, e: HistoryEntry)
    requires WellFormed(scope, changes)
    ensures var w := Rewrite(scope, changes.renames, e);
      || w == e
      || exists r :: r in changes.renames && Renames(scope, r, e)
           && w == e.(backupFile := r.backupFile, backupType := r.backupType)
  {
    if r :| r in changes.renames && Renames(scope, r, e) {
      var k :| 0 <= k < |changes.renames| && changes.renames[k] == r;
      RewriteAs(scope, changes.renames, e, k);
    } else {
      RewriteNone(scope, changes.renames, e);
    }
  }

  /** A rewritten entry takes over another entry's identity only through a hidden collision. */
  lemma RewriteAvoids(scope: Scope, latest: seq<HistoryEntry>, changes: HistoryChanges, e: HistoryEntry, other: HistoryEntry)
    requires WellFormed(scope, changes) && !HiddenCollision(scope, latest, changes)
    requires e in latest && other in latest && !scope.IsSame(e, other)
    requires scope.IsSame(Rewrite(scope, changes.renames, e), other)
    ensures MovedAway(scope, changes.renames, other)
  {
    RewriteCases(scope, changes, e);
    var w := Rewrite(scope, changes.renames, e);
    var r :| r in changes.renames && Renames(scope, r, e) && w == e.(backupFile := r.backupFile, backupType := r.backupType);
    assert scope.IsSame(other, r.Collision());
    assert r.Moves();
  }

  lemma NoHiddenIsExact(scope: Scope, latest: seq<HistoryEntry>, changes: HistoryChanges)
    requires WellFormed(scope, changes) && !HiddenCollision(scope, latest, changes)
    requires Accepts(scope, latest, changes)
    ensures ExactRemoval(scope, latest, changes)
  {
    forall e | e in latest
      ensures NamedIn(scope, Rewrite(scope, changes.renames, e), changes.deletions) <==> NamedIn(scope, e, changes.deletions)
    {
      RewriteCases(scope, changes, e);
      var w := Rewrite(scope, changes.renames, e);
      if NamedIn(scope, w, changes.deletions) {
        var d :| d in changes.deletions && scope.IsSame(w, d);
        assert Deletable(scope, latest, d);
        var other := latest[Located(scope, latest, d).value];
        assert scope.IsSame(w, other);
        if !scope.IsSame(e, other) {
          RewriteKeepsRest(scope, changes.renames, e);
          RewriteAvoids(scope, latest, changes, e, other);
        }
      }
    }
  }

  lemma NoHiddenIsUnique(scope: Scope, latest: seq<HistoryEntry>, changes: HistoryChanges)
    requires WellFormed(scope, changes) && !HiddenCollision(scope, latest, changes)
    requires UniqueIdentities(scope, latest)
    ensures UniqueAfter(scope, latest, changes)
  {
    forall i, j | 0 <= i < j < |latest|
      && !NamedIn(scope, latest[i], changes.deletions) && !NamedIn(scope, latest[j], changes.deletions)
      ensures !scope.IsSame(Rewrite(scope, changes.renames, latest[i]), Rewrite(scope, changes.renames, latest[j]))
    {
      assert !scope.IsSame(latest[i], latest[j]);
      NoClash(scope, latest, changes, latest[i], latest[j]);
    }
  }

  lemma NoClash(scope: Scope, latest: seq<HistoryEntry>, changes: HistoryChanges, a: HistoryEntry, b: HistoryEntry)
    requires WellFormed(scope, changes) && !HiddenCollision(scope, latest, changes)
    requires a in latest && b in latest && !scope.IsSame(a, b)
    ensures !scope.IsSame(Rewrite(scope, changes.renames, a), Rewrite(scope, changes.renames, b))
  {
    RewriteCases(scope, changes, a);
    RewriteCases(scope, changes, b);
    var x, y := Rewrite(scope, changes.renames, a), Rewrite(scope, changes.renames, b);
    if scope.IsSame(x, y) {
      if y == b {
        UnmovedClash(scope, latest, changes, a, b);
        assert false;
      } else if x == a {
        UnmovedClash(scope, latest, changes, b, a);
        assert false;
      }
    }
  }

  lemma UnmovedClash(scope: Scope, latest: seq<HistoryEntry>, changes: HistoryChanges, a: HistoryEntry, b: HistoryEntry)
    requires WellFormed(scope, changes) && !HiddenCollision(scope, latest, changes)
    requires a in latest && b in latest && !scope.IsSame(a, b)
    requires Rewrite(scope, changes.renames, b) == b
    ensures !scope.IsSame(Rewrite(scope, changes.renames, a), b)
  {
    if scope.IsSame(Rewrite(scope, changes.renames, a), b) {
      RewriteAvoids(scope, latest, changes, a, b);
      var q :| q in changes.renames && q.Moves() && Renames(scope, q, b);
      var k :| 0 <= k < |changes.renames| && changes.renames[k] == q;
      RewriteAs(scope, changes.renames, b, k);
      assert false;
    }
  }

  /** The overlooked entry either loses its identity to the renamed one or drags it into deletion. */
  lemma HiddenBreaks(scope: Scope, latest: seq<HistoryEntry>, changes: HistoryChanges)
    requires WellFormed(scope, changes) && Accepts(scope, latest, changes)
    requires HiddenCollision(scope, latest, changes)
    ensures !(ExactRemoval(scope, latest, changes) && UniqueAfter(scope, latest, changes))
  {
    var r, e :| r in changes.renames && e in latest
      && r.Moves() && scope.IsSame(e, r.Collision()) && !MovedAway(scope, changes.renames, e);
    assert Renamable(scope, latest, r);
    var at := Located(scope, latest, r.expected).value;
    var from := latest[at];
    HiddenTakesIdentity(scope, latest, changes, r, from, e);
    if ExactRemoval(scope, latest, changes) {
      assert !NamedIn(scope, from, changes.deletions);
      assert !NamedIn(scope, e, changes.deletions);
      var i :| 0 <= i < |latest| && latest[i] == e;
      assert i != at;
      assert latest[if i < at then i else at] != latest[if i < at then at else i];
    }
  }

  lemma HiddenTakesIdentity(scope: Scope, latest: seq<HistoryEntry>, changes: HistoryChanges,
                            r: HistoryRename, from: HistoryEntry, e: HistoryEntry)
    requires WellFormed(scope, changes)
    requires r in changes.renames && Renames(scope, r, from) && r.Moves()
    requires scope.IsSame(e, r.Collision()) && !MovedAway(scope, changes.renames, e)
    ensures scope.IsSame(Rewrite(scope, changes.renames, from), e)
    ensures scope.IsSame(Rewrite(scope, changes.renames, from), Rewrite(scope, changes.renames, e))
    ensures from.backupFile != e.backupFile
  {
    var k :| 0 <= k < |changes.renames| && changes.renames[k] == r;
    RewriteAs(scope, changes.renames, from, k);
    RewriteCases(scope, changes, e);
  }

  lemma {:induction false} IntendedUnique(scope: Scope, entries: seq<HistoryEntry>, changes: HistoryChanges)
    requires UniqueAfter(scope, entries, changes)
    ensures UniqueIdentities(scope, Intended(scope, entries, changes))
    ensures forall w | w in Intended(scope, entries, changes) ::
              exists i :: 0 <= i < |entries| && !NamedIn(scope, entries[i], changes.deletions)
                && w == Rewrite(scope, changes.renames, entries[i])
  {
    if entries != [] {
      var n := |entries| - 1;
      IntendedUnique(scope, entries[..n], changes);
      var front := Intended(scope, entries[..n], changes);
      if !NamedIn(scope, entries[n], changes.deletions) {
        forall k | 0 <= k < |front|
          ensures !scope.IsSame(front[k], Rewrite(scope, changes.renames, entries[n]))
        {
          assert front[k] in front;
          var i :| 0 <= i < n && !NamedIn(scope, entries[..n][i], changes.deletions)
            && front[k] == Rewrite(scope, changes.renames, entries[..n][i]);
          assert entries[..n][i] == entries[i];
        }
      }
    }
  }

  // ---- what the returned list says about the batch ----

  lemma NamedStaysNamed(scope: Scope, changes: HistoryChanges, e: HistoryEntry)
    requires WellFormed(scope, changes) && NamedIn(scope, e, changes.deletions)
    ensures Rewrite(scope, changes.renames, e) == e
  {
    var d :| d in changes.deletions && scope.IsSame(e, d);
    forall r | r in changes.renames ensures !Renames(scope, r, e) { assert !scope.IsSame(d, r.expected); }
    RewriteNone(scope, changes.renames, e);
  }

  /** The filter never keeps more than intended; when it keeps as much, it named the same entries. */
  lemma {:induction false} LengthForcesRemoval(scope: Scope, entries: seq<HistoryEntry>, changes: HistoryChanges,
                                               renamed: seq<HistoryEntry>)
    requires WellFormed(scope, changes) && |renamed| == |entries|
    requires forall i | 0 <= i < |entries| :: renamed[i] == Rewrite(scope, changes.renames, entries[i])
    ensures |Undeleted(scope, renamed, changes.deletions)| <= |Intended(scope, entries, changes)|
    ensures |Undeleted(scope, renamed, changes.deletions)| == |Intended(scope, entries, changes)| ==>
              forall i | 0 <= i < |entries| ::
                NamedIn(scope, renamed[i], changes.deletions) <==> NamedIn(scope, entries[i], changes.deletions)
  {
    if entries != [] {
      var n := |entries| - 1;
      LengthForcesRemoval(scope, entries[..n], changes, renamed[..n]);
      if NamedIn(scope, entries[n], changes.deletions) { NamedStaysNamed(scope, changes, entries[n]); }
      assert forall i | 0 <= i < n :: renamed[..n][i] == renamed[i] && entries[..n][i] == entries[i];
    }
  }

  lemma {:induction false} KeptIsIntended(scope: Scope, entries: seq<HistoryEntry>, changes: HistoryChanges, i: nat)
    requires i < |entries| && !NamedIn(scope, entries[i], changes.deletions)
    ensures Rewrite(scope, changes.renames, entries[i]) in Intended(scope, entries, changes)
  {
    var n := |entries| - 1;
    if i < n { KeptIsIntended(scope, entries[..n], changes, i); }
  }

  lemma {:induction false} UniqueOnlyAfter(scope: Scope, entries: seq<HistoryEntry>, changes: HistoryChanges)
    requires UniqueIdentities(scope, Intended(scope, entries, changes))
    ensures UniqueAfter(scope, entries, changes)
  {
    if entries != [] {
      var n := |entries| - 1;
      var front := Intended(scope, entries[..n], changes);
      var all := Intended(scope, entries, changes);
      assert forall k | 0 <= k < |front| :: all[k] == front[k];
      UniqueOnlyAfter(scope, entries[..n], changes);
      forall i, j | 0 <= i < j < |entries|
        && !NamedIn(scope, entries[i], changes.deletions) && !NamedIn(scope, entries[j], changes.deletions)
        ensures !scope.IsSame(Rewrite(scope, changes.renames, entries[i]), Rewrite(scope, changes.renames, entries[j]))
      {
        if j < n {
          assert entries[..n][i] == entries[i] && entries[..n][j] == entries[j];
        } else {
          KeptIsIntended(scope, entries[..n], changes, i);
          var k :| 0 <= k < |front| && front[k] == Rewrite(scope, changes.renames, entries[i]);
          assert !scope.IsSame(all[k], all[|front|]);
        }
      }
    }
  }

  lemma IntendedForcesExact(scope: Scope, latest: seq<HistoryEntry>, changes: HistoryChanges, renamed: seq<HistoryEntry>)
    requires WellFormed(scope, changes) && |renamed| == |latest|
    requires forall i | 0 <= i < |latest| :: renamed[i] == Rewrite(scope, changes.renames, latest[i])
    requires Undeleted(scope, renamed, changes.deletions) == Intended(scope, latest, changes)
    requires UniqueIdentities(scope, Intended(scope, latest, changes))
    ensures ExactRemoval(scope, latest, changes) && UniqueAfter(scope, latest, changes)
  {
    LengthForcesRemoval(scope, latest, changes, renamed);
    UniqueOnlyAfter(scope, latest, changes);
  }

  lemma AcceptedRewrites(scope: Scope, latest: seq<HistoryEntry>, changes: HistoryChanges)
    requires Accepts(scope, latest, changes)
    ensures var renamed := RenamedInPlace(scope, latest, changes.renames);
            forall i | 0 <= i < |latest| :: renamed[i] == Rewrite(scope, changes.renames, latest[i])
  {
    forall r | r in changes.renames ensures Located(scope, latest, r.expected).Some? {
      assert Renamable(scope, latest, r);
    }
    forall i | 0 <= i < |latest|
      ensures RenamedInPlace(scope, latest, changes.renames)[i] == Rewrite(scope, changes.renames, latest[i])
    {
      RenamedPointwise(scope, latest, changes.renames, i);
    }
  }

  /** The list an accepted batch returns is the intended one, with unique identities, if and only if
      there is no hidden collision. */
  lemma AcceptedBatchIsExact(scope: Scope, latest: seq<HistoryEntry>, changes: HistoryChanges)
    requires UniqueIdentities(scope, latest) && WellFormed(scope, changes) && Accepts(scope, latest, changes)
    ensures var next := Undeleted(scope, RenamedInPlace(scope, latest, changes.renames), changes.deletions);
            next == Intended(scope, latest, changes) && UniqueIdentities(scope, next)
            <==> !HiddenCollision(scope, latest, changes)
    ensures forall e | e in latest && NamedIn(scope, e, changes.deletions) :: !e.isImportant
  {
    var renamed := RenamedInPlace(scope, latest, changes.renames);
    AcceptedRewrites(scope, latest, changes);
    if HiddenCollision(scope, latest, changes) {
      HiddenBreaks(scope, latest, changes);
      var next := Undeleted(scope, renamed, changes.deletions);
      if next == Intended(scope, latest, changes) && UniqueIdentities(scope, next) {
        IntendedForcesExact(scope, latest, changes, renamed);
        assert false;
      }
    } else {
      NoHiddenIsExact(scope, latest, changes);
      NoHiddenIsUnique(scope, latest, changes);
      ExactRemovalGivesIntended(scope, latest, changes, renamed);
      IntendedUnique(scope, latest, changes);
    }
    forall e | e in latest && NamedIn(scope, e, changes.deletions) ensures !e.isImportant {
      NamedNotImportant(scope, latest, changes, e);
    }
  }

  lemma NamedNotImportant(scope: Scope, latest: seq<HistoryEntry>, changes: HistoryChanges, e: HistoryEntry)
    requires Accepts(scope, latest, changes) && e in latest && NamedIn(scope, e, changes.deletions)
    ensures !e.isImportant
  {
    var d :| d in changes.deletions && scope.IsSame(e, d);
    assert Deletable(scope, latest, d);
    var i :| 0 <= i < |latest| && latest[i] == e;
    assert LocatedAt(scope, latest, d, Located(scope, latest, d).value);
  }

  function SampleEntry(worldPath: string, file: ArchiveName): HistoryEntry
  {
    HistoryEntry("c", "", worldPath, "World", file, file.KindOf(), false, "", false, false, "", "", "", "")
  }

  /** A hidden collision happens: when one directory was recorded in two spellings that differ in
      letter case, promoting one archive to a name the other spelling already lists is accepted and
      leaves two entries of one identity. */
  lemma OverlookedCollision(scope: Scope)
    requires scope == Scope("c", (path: string, name: string) => Lower(path))
    ensures var a, b := SampleEntry("/W", Named(Smart, "s")), SampleEntry("/w", Named(Full, "s"));
            var changes := HistoryChanges([], [HistoryRename(a, b.backupFile, Full)]);
            && UniqueIdentities(scope, [a, b]) && WellFormed(scope, changes) && Accepts(scope, [a, b], changes)
            && var next := Undeleted(scope, RenamedInPlace(scope, [a, b], changes.renames), []);
            next == [a.(backupFile := b.backupFile, backupType := Full), b] && !UniqueIdentities(scope, next)
  {
    var a, b := SampleEntry("/W", Named(Smart, "s")), SampleEntry("/w", Named(Full, "s"));
    var r := HistoryRename(a, b.backupFile, Full);
    assert a.worldPath[1] != b.worldPath[1];
    assert Lower("/W") == Lower("/w") by { assert Lower("/W")[1] == 'w'; }
    assert LocatedAt(scope, [a, b], a, 0) && LocatedAt(scope, [a, b], r.expected, 0);
    var next := [a.(backupFile := b.backupFile, backupType := Full), b];
    assert RenamedInPlace(scope, [a, b], []) == [a, b];
    assert [r][..0] == [];
    assert RenamedInPlace(scope, [a, b], [r]) == next;
    assert next[..1][..0] == [] && next[..1] + [next[1]] == next;
    assert Undeleted(scope, next[..1], []) == next[..1];
    assert scope.IsSame(next[0], next[1]);
  }
}
