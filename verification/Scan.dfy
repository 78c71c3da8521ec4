/** Change detection: which files of the source differ from the saved state. */
module Scan {
  import opened Names
  import opened Ordering
  import opened Delta
  import opened Chain
  import opened Format

  datatype SourceFile = SourceFile(content: Content, state: FileState)

  type Source = map<Path, SourceFile>
  type States = map<Path, FileState>

  datatype ScanStatus = NoChange | ChangesDetected | MetadataInvalid | BaseBackupMissing | ScanFailed

  datatype ScanResult = ScanResult(
    status: ScanStatus,
    current: States,
    changes: ChangeSet,
    changed: seq<Path>,
    last: ArchiveName,
    basedOn: ArchiveName)

  const NO_CHANGES := ChangeSet([], [], [])

  predicate StatesValid(files: States)
  {
    forall p | p in files :: SafeRelative(p) && files[p].lastWrite != ""
  }

  /** The state of every source file, or nothing when one of them cannot be captured. */
  function Collect(source: Source): Option<States>
  {
    var states := map p | p in source :: source[p].state;
    if StatesValid(states) then Some(states) else None
  }

  predicate Touched(a: FileState, b: FileState) { a.size != b.size || a.lastWrite != b.lastWrite }

  // How one path compares; used by the scan loops and by the lists they build.

  function IsAdded(previous: States, current: States): Path -> bool
  {
    p => p in current && p !in previous
  }

  function IsModified(previous: States, current: States): Path -> bool
  {
    p => p in current && p in previous && Touched(previous[p], current[p])
  }

  function IsCandidate(previous: States, current: States): Path -> bool
  {
    p => p in current && (p !in previous || Touched(previous[p], current[p]))
  }

  function AddedPaths(previous: States, current: States): set<Path>
  {
    set p | p in current && p !in previous
  }

  function ModifiedPaths(previous: States, current: States): set<Path>
  {
    set p | p in current && p in previous && Touched(previous[p], current[p])
  }

  function Diff(previous: States, current: States): ChangeSet
  {
    ChangeSet(Listing(AddedPaths(previous, current)), Listing(ModifiedPaths(previous, current)),
              Listing(AddedPaths(current, previous)))
  }

  function Candidates(previous: States, current: States): seq<Path>
  {
    Listing(AddedPaths(previous, current) + ModifiedPaths(previous, current))
  }

  method Classify(previous: States, current: States) returns (added: seq<Path>, modified: seq<Path>, changed: seq<Path>)
    ensures added == Kept(Listing(current.Keys), IsAdded(previous, current))
    ensures modified == Kept(Listing(current.Keys), IsModified(previous, current))
    ensures changed == Kept(Listing(current.Keys), IsCandidate(previous, current))
  {
    var paths := Listing(current.Keys);
    ghost var isAdded, isModified, isChanged :=
      IsAdded(previous, current), IsModified(previous, current), IsCandidate(previous, current);
    added, modified, changed := [], [], [];
    for i := 0 to |paths|
      invariant added == Kept(paths[..i], isAdded)
      invariant modified == Kept(paths[..i], isModified)
      invariant changed == Kept(paths[..i], isChanged)
    {
      var p := paths[i];
      ListingMember(current.Keys, i);
      KeptStep(paths, i, isAdded);
      KeptStep(paths, i, isModified);
      KeptStep(paths, i, isChanged);
      if p !in previous {
        added := added + [p];
        changed := changed + [p];
      } else if Touched(previous[p], current[p]) {
        modified := modified + [p];
        changed := changed + [p];
      }
    }
    assert paths[..|paths|] == paths;
  }

  lemma ClassifiedListing(previous: States, current: States)
    ensures Kept(Listing(current.Keys), IsAdded(previous, current)) == Listing(AddedPaths(previous, current))
    ensures Kept(Listing(current.Keys), IsModified(previous, current)) == Listing(ModifiedPaths(previous, current))
    ensures Kept(Listing(current.Keys), IsCandidate(previous, current)) == Candidates(previous, current)
  {
    KeptListing(current.Keys, IsAdded(previous, current), AddedPaths(previous, current));
    KeptListing(current.Keys, IsModified(previous, current), ModifiedPaths(previous, current));
    KeptListing(current.Keys, IsCandidate(previous, current), AddedPaths(previous, current) + ModifiedPaths(previous, current));
  }

  method CompareStates(previous: States, current: States) returns (c: ChangeSet, changed: seq<Path>)
    ensures c == Diff(previous, current)
    ensures changed == Candidates(previous, current)
  {
    var added, modified;
    added, modified, changed := Classify(previous, current);
    ClassifiedListing(previous, current);
    var deleted := MissingFrom(previous, current);
    c := ChangeSet(added, modified, deleted);
  }

  method MissingFrom(previous: States, current: States) returns (deleted: seq<Path>)
    ensures deleted == Listing(AddedPaths(current, previous))
  {
    var paths := Listing(previous.Keys);
    ghost var isDeleted := IsAdded(current, previous);
    deleted := [];
    for i := 0 to |paths|
      invariant deleted == Kept(paths[..i], isDeleted)
    {
      ListingMember(previous.Keys, i);
      KeptStep(paths, i, isDeleted);
      if paths[i] !in current { deleted := deleted + [paths[i]]; }
    }
    assert paths[..|paths|] == paths;
    KeptListing(previous.Keys, isDeleted, AddedPaths(current, previous));
  }

  function Scanned(source: Source, state: Option<MetadataState>, archives: set<ArchiveName>): ScanResult
  {
    var collected := Collect(source);
    if state.None? || !StatesValid(state.value.files) then
      if collected.None? then ScanResult(ScanFailed, map[], NO_CHANGES, [], NoArchive, NoArchive)
      else ScanResult(MetadataInvalid, collected.value, NO_CHANGES, [], NoArchive, NoArchive)
    else
      var s := state.value;
      if s.last == NoArchive || s.last !in archives || (s.basedOn != NoArchive && s.basedOn !in archives) then
        if collected.None? then ScanResult(ScanFailed, map[], NO_CHANGES, [], NoArchive, NoArchive)
        else ScanResult(BaseBackupMissing, collected.value, NO_CHANGES, [], s.last, s.basedOn)
      else if collected.None? then ScanResult(ScanFailed, map[], NO_CHANGES, [], s.last, s.basedOn)
      else
        var c := Diff(s.files, collected.value);
        ScanResult(if c == NO_CHANGES then NoChange else ChangesDetected,
                   collected.value, c, Candidates(s.files, collected.value), s.last, s.basedOn)
  }

  method RunScan(source: Source, state: Option<MetadataState>, archives: set<ArchiveName>) returns (r: ScanResult)
    ensures r == Scanned(source, state, archives)
  {
    var collected := Collect(source);
    var failed := ScanResult(ScanFailed, map[], NO_CHANGES, [], NoArchive, NoArchive);
    if state.None? || !StatesValid(state.value.files) {
      return if collected.None? then failed else failed.(status := MetadataInvalid, current := collected.value);
    }
    var s := state.value;
    if s.last == NoArchive || s.last !in archives || (s.basedOn != NoArchive && s.basedOn !in archives) {
      return if collected.None? then failed
             else ScanResult(BaseBackupMissing, collected.value, NO_CHANGES, [], s.last, s.basedOn);
    }
    if collected.None? {
      return failed.(last := s.last, basedOn := s.basedOn);
    }
    var changes, changed := CompareStates(s.files, collected.value);
    r := ScanResult(if changes != NO_CHANGES then ChangesDetected else NoChange,
                    collected.value, changes, changed, s.last, s.basedOn);
  }

  // ---- the change set is an exact patch ----

  function Stamps(files: States): map<Path, (nat, string)>
  {
    map p | p in files :: (files[p].size, files[p].lastWrite)
  }

  function Patched(previous: States, c: ChangeSet, current: States): States
  {
    (previous - Elems(c.deleted)) + map p | p in current && (p in Elems(c.added) || p in Elems(c.modified)) :: current[p]
  }

  /** Disjoint sorted lists that fit the previous files and lead to the current ones. */
  lemma DiffFits(previous: States, current: States)
    ensures var c := Diff(previous, current);
      && WellListed(c)
      && Consistent(c, previous.Keys)
      && After(c, previous.Keys) == current.Keys
      && Elems(Candidates(previous, current)) == Elems(c.added) + Elems(c.modified)
  {}

  /** Applying the change set to the previous states gives the current sizes and times. */
  lemma DiffIsPatch(previous: States, current: States)
    ensures Stamps(Patched(previous, Diff(previous, current), current)) == Stamps(current)
  {
    var patched := Patched(previous, Diff(previous, current), current);
    assert patched.Keys == current.Keys;
    forall p | p in current
      ensures patched[p].size == current[p].size && patched[p].lastWrite == current[p].lastWrite
    {}
  }

  // ---- filtering by the blacklist ----

  function FilterStates(files: States, dropped: Path -> bool): States
  {
    map p | p in files && !dropped(p) :: files[p]
  }

  function Allowed(dropped: Path -> bool): Path -> bool { p => !dropped(p) }

  function FilterChanges(c: ChangeSet, dropped: Path -> bool): ChangeSet
  {
    ChangeSet(Kept(c.added, Allowed(dropped)), Kept(c.modified, Allowed(dropped)), Kept(c.deleted, Allowed(dropped)))
  }

  lemma FilteredDiff(previous: States, current: States, dropped: Path -> bool)
    ensures FilterChanges(Diff(previous, current), dropped)
         == Diff(FilterStates(previous, dropped), FilterStates(current, dropped))
  {
    var p0, c0 := FilterStates(previous, dropped), FilterStates(current, dropped);
    KeptListing(AddedPaths(previous, current), Allowed(dropped), AddedPaths(p0, c0));
    KeptListing(ModifiedPaths(previous, current), Allowed(dropped), ModifiedPaths(p0, c0));
    KeptListing(AddedPaths(current, previous), Allowed(dropped), AddedPaths(c0, p0));
  }

  /** Filtering the change lists equals diffing against the filtered files exactly when the saved
      state holds no blacklisted path. */
  lemma FilterCommutes(previous: States, current: States, dropped: Path -> bool)
    ensures FilterChanges(Diff(previous, current), dropped) == Diff(previous, FilterStates(current, dropped))
       <==> forall p | p in previous :: !dropped(p)
  {
    FilteredDiff(previous, current, dropped);
    if forall p | p in previous :: !dropped(p) {
      assert FilterStates(previous, dropped) == previous;
    } else {
      var p :| p in previous && dropped(p);
      var left := Diff(FilterStates(previous, dropped), FilterStates(current, dropped));
      var right := Diff(previous, FilterStates(current, dropped));
      assert p in Elems(right.deleted);
      assert p !in Elems(left.deleted);
    }
  }
}
