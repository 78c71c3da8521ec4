/** The copy-on-write store of history entries: every published snapshot was saved first, and what readers were
    handed stays as it was. */
module HistoryRepository {
  import opened Names
  import opened Ordering
  import opened History

  type Entries = seq<HistoryEntry>
  type Mutator = Entries -> (bool, Entries)

  /** The repository as a value: what is published, its revision, and what the history file holds. */
  datatype Repository = Repository(revision: nat, published: map<string, Entries>, file: map<string, Entries>)

  function EntriesOf(m: map<string, Entries>, configId: string): Entries
  {
    if configId in m then m[configId] else []
  }

  datatype MutationResult = MutationResult(changed: bool, persisted: bool)

  /** One request to the repository. `saves` says whether writing the file succeeds. */
  datatype Operation =
    | Mutation(configId: string, persist: bool, saves: bool, mutator: Mutator)
    | Replacement(history: map<string, Entries>, persist: bool, saves: bool)

  function Outcome(r: Repository, op: Operation): MutationResult
  {
    match op
    case Mutation(configId, persist, saves, mutator) =>
      if configId == "" || !mutator(EntriesOf(r.published, configId)).0 then MutationResult(false, true)
      else MutationResult(true, !persist || saves)
    case Replacement(_, persist, saves) => MutationResult(true, !persist || saves)
  }

  function Proposed(r: Repository, op: Operation): map<string, Entries>
  {
    match op
    case Mutation(configId, _, _, mutator) => r.published[configId := mutator(EntriesOf(r.published, configId)).1]
    case Replacement(history, _, _) => history
  }

  function After(r: Repository, op: Operation): Repository
  {
    var outcome := Outcome(r, op);
    if outcome.changed && outcome.persisted then
      Repository(r.revision + 1, Proposed(r, op), if op.persist then Proposed(r, op) else r.file)
    else r
  }

  /** One list of entries as readers share it. */
  class View {
    var items: Entries

    constructor (items: Entries)
      ensures this.items == items
    {
      this.items := items;
    }
  }

  class Snapshot {
    var revision: nat
    var byConfigId: map<string, View>

    constructor (revision: nat)
      ensures this.revision == revision && byConfigId == map[]
    {
      this.revision, byConfigId := revision, map[];
    }

    ghost function Contents(): map<string, Entries>
      reads this, byConfigId.Values
    {
      map c | c in byConfigId :: byConfigId[c].items
    }

    method Copy() returns (s: Snapshot)
      ensures fresh(s) && s.revision == revision && s.byConfigId == byConfigId
    {
      s := new Snapshot(revision);
      s.byConfigId := byConfigId;
    }

    /** The next snapshot: every list shared with this one, except that of one configuration. */
    method With(configId: string, items: Entries) returns (s: Snapshot)
      ensures fresh(s) && s.revision == revision + 1
      ensures s.Contents() == Contents()[configId := items]
    {
      s := Copy();
      s.revision := revision + 1;
      var view := new View(items);
      s.byConfigId := s.byConfigId[configId := view];
    }

    method Flatten() returns (flattened: map<string, Entries>)
      ensures flattened == Contents()
    {
      flattened := map[];
      var left := byConfigId.Keys;
      while left != {}
        invariant left <= byConfigId.Keys
        invariant flattened.Keys == byConfigId.Keys - left
        invariant forall c | c in flattened :: flattened[c] == byConfigId[c].items
        decreases |left|
      {
        var c :| c in left;
        flattened := flattened[c := byConfigId[c].items];
        left := left - {c};
      }
    }
  }

  method MakeSnapshot(history: map<string, Entries>, revision: nat) returns (s: Snapshot)
    ensures fresh(s) && fresh(s.byConfigId.Values)
    ensures s.revision == revision && s.Contents() == history
  {
    s := new Snapshot(revision);
    var left := history.Keys;
    while left != {}
      invariant left <= history.Keys
      invariant fresh(s) && s.revision == revision
      invariant s.byConfigId.Keys == history.Keys - left
      invariant forall c | c in s.byConfigId :: fresh(s.byConfigId[c]) && s.byConfigId[c].items == history[c]
      decreases |left|
    {
      var c :| c in left;
      var view := new View(history[c]);
      s.byConfigId := s.byConfigId[c := view];
      left := left - {c};
    }
  }

  class HistoryStore {
    var snapshot: Snapshot
    var file: map<string, Entries>

    ghost function Model(): Repository
      reads this, snapshot, snapshot.byConfigId.Values
    {
      Repository(snapshot.revision, snapshot.Contents(), file)
    }

    constructor ()
      ensures Model() == Repository(0, map[], map[])
    {
      snapshot := new Snapshot(0);
      file := map[];
    }

    /** Readers get the very object that is published; the methods below never write to it again. */
    method EntriesForConfig(configId: string) returns (view: View)
      ensures view.items == EntriesOf(Model().published, configId)
    {
      if configId in snapshot.byConfigId {
        view := snapshot.byConfigId[configId];
      } else {
        view := new View([]);
      }
    }

    method Save(next: Snapshot, saves: bool) returns (ok: bool)
      modifies this`file
      ensures ok == saves
      ensures file == if saves then next.Contents() else old(file)
    {
      var flattened := next.Flatten();
      if saves { file := flattened; }
      ok := saves;
    }

    /** Writes no object a reader could hold: only the repository's own fields and newly made snapshots. */
    method Mutate(configId: string, persist: bool, saves: bool, mutator: Mutator) returns (result: MutationResult)
      modifies this
      ensures result == Outcome(old(Model()), Mutation(configId, persist, saves, mutator))
      ensures Model() == After(old(Model()), Mutation(configId, persist, saves, mutator))
      ensures var m := mutator(EntriesOf(old(Model()).published, configId));
              Model() == if configId != "" && m.0 && (!persist || saves)
                         then var now := old(Model()).published[configId := m.1];
                              Repository(old(Model()).revision + 1, now, if persist then now else old(file))
                         else old(Model())
    {
      if configId == "" { return MutationResult(false, true); }
      var entries: Entries := [];
      if configId in snapshot.byConfigId { entries := snapshot.byConfigId[configId].items; }
      var mutated := mutator(entries);
      if !mutated.0 { return MutationResult(false, true); }
      var next := snapshot.With(configId, mutated.1);
      if persist {
        var saved := Save(next, saves);
        if !saved { return MutationResult(true, false); }
      }
      snapshot := next;
      result := MutationResult(true, true);
    }

    method ReplaceAll(history: map<string, Entries>, persist: bool, saves: bool) returns (ok: bool)
      modifies this
      ensures ok == Outcome(old(Model()), Replacement(history, persist, saves)).persisted
      ensures Model() == After(old(Model()), Replacement(history, persist, saves))
      ensures ok <==> !persist || saves
      ensures Model() == if ok then Repository(old(Model()).revision + 1, history, if persist then history else old(file))
                         else old(Model())
    {
      var next := MakeSnapshot(history, snapshot.revision + 1);
      if persist {
        var saved := Save(next, saves);
        if !saved { return false; }
      }
      snapshot := next;
      ok := true;
    }
  }

  // ---- any sequence of requests ----

  function Run(r: Repository, ops: seq<Operation>): Repository
    decreases ops
  {
    if ops == [] then r else Run(After(r, ops[0]), ops[1..])
  }

  function Publications(r: Repository, ops: seq<Operation>): nat
    decreases ops
  {
    if ops == [] then 0
    else
      var outcome := Outcome(r, ops[0]);
      (if outcome.changed && outcome.persisted then 1 else 0) + Publications(After(r, ops[0]), ops[1..])
  }

  /** As long as every request persists, what is published is what was last saved, however saves fail. */
  lemma {:induction false} PublishedIsSaved(r: Repository, ops: seq<Operation>)
    requires r.published == r.file
    requires forall i | 0 <= i < |ops| :: ops[i].persist
    ensures Run(r, ops).published == Run(r, ops).file
    decreases ops
  {
    if ops != [] {
      assert ops[0].persist;
      PublishedIsSaved(After(r, ops[0]), ops[1..]);
    }
  }

  /** Revisions count the publications, so they never repeat: equal revisions mean nothing was published. */
  lemma {:induction false} RevisionsIncrease(r: Repository, ops: seq<Operation>)
    ensures Run(r, ops).revision == r.revision + Publications(r, ops)
    ensures Run(r, ops).revision == r.revision ==> Run(r, ops) == r
    decreases ops
  {
    if ops != [] { RevisionsIncrease(After(r, ops[0]), ops[1..]); }
  }

  /** Mutations of other configurations leave a configuration's entries alone, published and saved. */
  lemma {:induction false} OthersUntouched(r: Repository, ops: seq<Operation>, configId: string)
    requires forall i | 0 <= i < |ops| :: ops[i].Mutation? && ops[i].configId != configId && ops[i].persist
    requires EntriesOf(r.file, configId) == EntriesOf(r.published, configId)
    ensures EntriesOf(Run(r, ops).published, configId) == EntriesOf(r.published, configId)
    ensures EntriesOf(Run(r, ops).file, configId) == EntriesOf(r.file, configId)
    decreases ops
  {
    if ops != [] {
      assert ops[0].Mutation? && ops[0].configId != configId;
      OthersUntouched(After(r, ops[0]), ops[1..], configId);
    }
  }

  // ---- inserting or completing one entry ----

  predicate Matches(e: HistoryEntry, worldName: string, backupFile: ArchiveName)
  {
    e.worldName == worldName && e.backupFile == backupFile
  }

  /** Position of the first entry of a world and file, or the length when there is none. */
  function FirstMatch(entries: Entries, worldName: string, backupFile: ArchiveName): (i: nat)
    ensures i <= |entries|
    ensures i < |entries| ==> Matches(entries[i], worldName, backupFile)
    ensures forall j | 0 <= j < i :: !Matches(entries[j], worldName, backupFile)
  {
    if entries == [] || Matches(entries[0], worldName, backupFile) then 0
    else 1 + FirstMatch(entries[1..], worldName, backupFile)
  }

  function Fill(target: string, value: string): string { if target == "" then value else target }

  function Filled(a: HistoryEntry, e: HistoryEntry): HistoryEntry
  {
    a.(configId := Fill(a.configId, e.configId),
       timestamp := Fill(a.timestamp, e.timestamp),
       worldPath := Fill(a.worldPath, e.worldPath),
       comment := Fill(a.comment, e.comment),
       backupType := if a.backupType == Untyped then e.backupType else a.backupType,
       isPartialBackup := a.isPartialBackup || e.isPartialBackup,
       isImportant := a.isImportant || e.isImportant,
       isCloudArchived := a.isCloudArchived || e.isCloudArchived,
       cloudArchivedAtUtc := Fill(a.cloudArchivedAtUtc, e.cloudArchivedAtUtc),
       cloudArchiveRemotePath := Fill(a.cloudArchiveRemotePath, e.cloudArchiveRemotePath),
       cloudMetadataRecordRemotePath := Fill(a.cloudMetadataRecordRemotePath, e.cloudMetadataRecordRemotePath),
       cloudMetadataStateRemotePath := Fill(a.cloudMetadataStateRemotePath, e.cloudMetadataStateRemotePath))
  }

  function Upserted(entries: Entries, e: HistoryEntry, overwrite: bool, configId: string): (bool, Entries)
  {
    var i := FirstMatch(entries, e.worldName, e.backupFile);
    if i == |entries| then (true, entries + [e.(configId := configId)])
    else if overwrite then (true, entries[i := e.(configId := configId)])
    else (Filled(entries[i], e) != entries[i], entries[i := Filled(entries[i], e)])
  }

  /** Field by field: what was set stays, an empty text or type becomes the request's, a mark holds when either had it. */
  ghost predicate Completes(a: HistoryEntry, e: HistoryEntry, b: HistoryEntry)
  {
    && b.worldName == a.worldName && b.backupFile == a.backupFile
    && (if a.configId == "" then b.configId == e.configId else b.configId == a.configId)
    && (if a.timestamp == "" then b.timestamp == e.timestamp else b.timestamp == a.timestamp)
    && (if a.worldPath == "" then b.worldPath == e.worldPath else b.worldPath == a.worldPath)
    && (if a.comment == "" then b.comment == e.comment else b.comment == a.comment)
    && (if a.backupType == Untyped then b.backupType == e.backupType else b.backupType == a.backupType)
    && (b.isPartialBackup <==> a.isPartialBackup || e.isPartialBackup)
    && (b.isImportant <==> a.isImportant || e.isImportant)
    && (b.isCloudArchived <==> a.isCloudArchived || e.isCloudArchived)
    && (if a.cloudArchivedAtUtc == "" then b.cloudArchivedAtUtc == e.cloudArchivedAtUtc
        else b.cloudArchivedAtUtc == a.cloudArchivedAtUtc)
    && (if a.cloudArchiveRemotePath == "" then b.cloudArchiveRemotePath == e.cloudArchiveRemotePath
        else b.cloudArchiveRemotePath == a.cloudArchiveRemotePath)
    && (if a.cloudMetadataRecordRemotePath == "" then b.cloudMetadataRecordRemotePath == e.cloudMetadataRecordRemotePath
        else b.cloudMetadataRecordRemotePath == a.cloudMetadataRecordRemotePath)
    && (if a.cloudMetadataStateRemotePath == "" then b.cloudMetadataStateRemotePath == e.cloudMetadataStateRemotePath
        else b.cloudMetadataStateRemotePath == a.cloudMetadataStateRemotePath)
  }

  predicate Missing(have: string, offer: string) { have == "" && offer != "" }

  /** The request has something the entry does not have. */
  predicate Lacks(a: HistoryEntry, e: HistoryEntry)
  {
    || Missing(a.configId, e.configId) || Missing(a.timestamp, e.timestamp) || Missing(a.worldPath, e.worldPath)
    || Missing(a.comment, e.comment) || (a.backupType == Untyped && e.backupType != Untyped)
    || (e.isPartialBackup && !a.isPartialBackup) || (e.isImportant && !a.isImportant)
    || (e.isCloudArchived && !a.isCloudArchived) || Missing(a.cloudArchivedAtUtc, e.cloudArchivedAtUtc)
    || Missing(a.cloudArchiveRemotePath, e.cloudArchiveRemotePath)
    || Missing(a.cloudMetadataRecordRemotePath, e.cloudMetadataRecordRemotePath)
    || Missing(a.cloudMetadataStateRemotePath, e.cloudMetadataStateRemotePath)
  }

  lemma FilledFields(a: HistoryEntry, e: HistoryEntry)
    ensures Completes(a, e, Filled(a, e))
  {}

  lemma FilledLacksNothing(a: HistoryEntry, e: HistoryEntry)
    ensures !Lacks(Filled(a, e), e)
  {
    FillLacksNothing(a.configId, e.configId);
    FillLacksNothing(a.timestamp, e.timestamp);
    FillLacksNothing(a.worldPath, e.worldPath);
    FillLacksNothing(a.comment, e.comment);
    FillLacksNothing(a.cloudArchivedAtUtc, e.cloudArchivedAtUtc);
    FillLacksNothing(a.cloudArchiveRemotePath, e.cloudArchiveRemotePath);
    FillLacksNothing(a.cloudMetadataRecordRemotePath, e.cloudMetadataRecordRemotePath);
    FillLacksNothing(a.cloudMetadataStateRemotePath, e.cloudMetadataStateRemotePath);
  }

  lemma FillLacksNothing(have: string, offer: string)
    ensures !Missing(Fill(have, offer), offer) && (!Missing(have, offer) ==> Fill(have, offer) == have)
  {}

  lemma LacksNothingStays(a: HistoryEntry, e: HistoryEntry)
    requires !Lacks(a, e)
    ensures Filled(a, e) == a
  {
    FillLacksNothing(a.configId, e.configId);
    FillLacksNothing(a.timestamp, e.timestamp);
    FillLacksNothing(a.worldPath, e.worldPath);
    FillLacksNothing(a.comment, e.comment);
    FillLacksNothing(a.cloudArchivedAtUtc, e.cloudArchivedAtUtc);
    FillLacksNothing(a.cloudArchiveRemotePath, e.cloudArchiveRemotePath);
    FillLacksNothing(a.cloudMetadataRecordRemotePath, e.cloudMetadataRecordRemotePath);
    FillLacksNothing(a.cloudMetadataStateRemotePath, e.cloudMetadataStateRemotePath);
  }

  lemma FilledCompletes(a: HistoryEntry, e: HistoryEntry)
    ensures Completes(a, e, Filled(a, e))
    ensures Filled(a, e) != a <==> Lacks(a, e)
    ensures !Lacks(Filled(a, e), e)
  {
    FilledFields(a, e);
    FilledLacksNothing(a, e);
    if !Lacks(a, e) { LacksNothingStays(a, e); }
  }

  ghost predicate NoMatch(entries: Entries, e: HistoryEntry)
  {
    forall j | 0 <= j < |entries| :: !(entries[j].worldName == e.worldName && entries[j].backupFile == e.backupFile)
  }

  /** The first entry of the request's world and file. */
  ghost predicate FirstIs(entries: Entries, e: HistoryEntry, i: nat)
  {
    i < |entries| && entries[i].worldName == e.worldName && entries[i].backupFile == e.backupFile && NoMatch(entries[..i], e)
  }

  /** The whole effect of a request on the entries of its configuration: without an entry of its world and file it is
      appended under that configuration; otherwise the first such entry is replaced by it, or completed from it. */
  ghost predicate UpsertDone(entries: Entries, e: HistoryEntry, overwrite: bool, configId: string, changed: bool, r: Entries)
  {
    && (NoMatch(entries, e) ==> changed && r == entries + [e.(configId := configId)])
    && forall i: nat | FirstIs(entries, e, i) ::
         && |r| == |entries| && (forall k | 0 <= k < |r| && k != i :: r[k] == entries[k])
         && if overwrite then changed && r[i] == e.(configId := configId)
            else Completes(entries[i], e, r[i]) && (changed <==> Lacks(entries[i], e))
  }

  lemma FirstOrNone(entries: Entries, e: HistoryEntry)
    ensures var i := FirstMatch(entries, e.worldName, e.backupFile);
      if i == |entries| then NoMatch(entries, e) else FirstIs(entries, e, i) && !NoMatch(entries, e)
    ensures forall i: nat | FirstIs(entries, e, i) :: i == FirstMatch(entries, e.worldName, e.backupFile)
  {
    var k := FirstMatch(entries, e.worldName, e.backupFile);
    forall i: nat | FirstIs(entries, e, i) ensures i == k {
      if k < i { NoMatchAt(entries, e, i, k); }
    }
    if k < |entries| { assert Matches(entries[k], e.worldName, e.backupFile); }
  }

  lemma NoMatchAt(entries: Entries, e: HistoryEntry, i: nat, k: nat)
    requires k < i <= |entries| && NoMatch(entries[..i], e)
    ensures !Matches(entries[k], e.worldName, e.backupFile)
  {
    assert entries[..i][k] == entries[k];
  }

  lemma UpsertedDone(entries: Entries, e: HistoryEntry, overwrite: bool, configId: string)
    ensures var u := Upserted(entries, e, overwrite, configId); UpsertDone(entries, e, overwrite, configId, u.0, u.1)
  {
    var i := FirstMatch(entries, e.worldName, e.backupFile);
    FirstOrNone(entries, e);
    if i < |entries| { FilledCompletes(entries[i], e); }
  }

  method FillText(target: string, value: string, changed: bool) returns (text: string, c: bool)
    ensures text == Fill(target, value) && (c <==> changed || text != target)
  {
    text, c := target, changed;
    if target == "" && value != "" { text, c := value, true; }
  }

  method FillLocal(existing: HistoryEntry, e: HistoryEntry) returns (r: HistoryEntry, changed: bool)
    ensures r == Filled(existing, e).(isCloudArchived := existing.isCloudArchived,
                                      cloudArchivedAtUtc := existing.cloudArchivedAtUtc,
                                      cloudArchiveRemotePath := existing.cloudArchiveRemotePath,
                                      cloudMetadataRecordRemotePath := existing.cloudMetadataRecordRemotePath,
                                      cloudMetadataStateRemotePath := existing.cloudMetadataStateRemotePath)
    ensures changed <==> r != existing
  {
    var configId, timestamp, worldPath, comment;
    configId, changed := FillText(existing.configId, e.configId, false);
    timestamp, changed := FillText(existing.timestamp, e.timestamp, changed);
    worldPath, changed := FillText(existing.worldPath, e.worldPath, changed);
    comment, changed := FillText(existing.comment, e.comment, changed);
    r := existing.(configId := configId, timestamp := timestamp, worldPath := worldPath, comment := comment);
    if r.backupType == Untyped && e.backupType != Untyped { r, changed := r.(backupType := e.backupType), true; }
    if !r.isPartialBackup && e.isPartialBackup { r, changed := r.(isPartialBackup := true), true; }
    if !r.isImportant && e.isImportant { r, changed := r.(isImportant := true), true; }
  }

  method FillEntry(existing: HistoryEntry, e: HistoryEntry) returns (r: HistoryEntry, changed: bool)
    ensures r == Filled(existing, e) && (changed <==> r != existing)
    ensures Completes(existing, e, r) && (changed <==> Lacks(existing, e))
  {
    FilledCompletes(existing, e);
    var at, archivePath, recordPath, statePath;
    r, changed := FillLocal(existing, e);
    if !r.isCloudArchived && e.isCloudArchived { r, changed := r.(isCloudArchived := true), true; }
    at, changed := FillText(r.cloudArchivedAtUtc, e.cloudArchivedAtUtc, changed);
    archivePath, changed := FillText(r.cloudArchiveRemotePath, e.cloudArchiveRemotePath, changed);
    recordPath, changed := FillText(r.cloudMetadataRecordRemotePath, e.cloudMetadataRecordRemotePath, changed);
    statePath, changed := FillText(r.cloudMetadataStateRemotePath, e.cloudMetadataStateRemotePath, changed);
    r := r.(cloudArchivedAtUtc := at, cloudArchiveRemotePath := archivePath,
            cloudMetadataRecordRemotePath := recordPath, cloudMetadataStateRemotePath := statePath);
  }

  lemma FirstMatchIs(entries: Entries, worldName: string, backupFile: ArchiveName, i: nat)
    requires i < |entries| && Matches(entries[i], worldName, backupFile)
    requires forall j | 0 <= j < i :: !Matches(entries[j], worldName, backupFile)
    ensures FirstMatch(entries, worldName, backupFile) == i
  {
    var k := FirstMatch(entries, worldName, backupFile);
    assert k >= i && !(k > i);
  }

  /** The update the manager hands to the repository, over its working copy of the entries. */
  method UpsertIn(entries: Entries, e: HistoryEntry, overwrite: bool, configId: string)
    returns (changed: bool, updated: Entries)
    ensures (changed, updated) == Upserted(entries, e, overwrite, configId)
    ensures UpsertDone(entries, e, overwrite, configId, changed, updated)
  {
    UpsertedDone(entries, e, overwrite, configId);
    for i := 0 to |entries|
      invariant forall j | 0 <= j < i :: !Matches(entries[j], e.worldName, e.backupFile)
    {
      if !Matches(entries[i], e.worldName, e.backupFile) { continue; }
      FirstMatchIs(entries, e.worldName, e.backupFile, i);
      if overwrite { return true, entries[i := e.(configId := configId)]; }
      var r;
      r, changed := FillEntry(entries[i], e);
      return changed, entries[i := r];
    }
    return true, entries + [e.(configId := configId)];
  }

  ghost predicate PairsUnique(entries: Entries)
  {
    forall i, j | 0 <= i < j < |entries| :: !Matches(entries[j], entries[i].worldName, entries[i].backupFile)
  }

  /** Neither form of the update ever makes two entries of one world and file. */
  lemma UpsertKeepsPairsUnique(entries: Entries, e: HistoryEntry, overwrite: bool, configId: string)
    requires PairsUnique(entries)
    ensures PairsUnique(Upserted(entries, e, overwrite, configId).1)
  {
    var i := FirstMatch(entries, e.worldName, e.backupFile);
    var r := Upserted(entries, e, overwrite, configId).1;
    if i == |entries| {
      forall a, b | 0 <= a < b < |r| ensures !Matches(r[b], r[a].worldName, r[a].backupFile) {
        assert !Matches(entries[a], e.worldName, e.backupFile);
      }
    } else {
      assert forall a | 0 <= a < |r| :: r[a].worldName == entries[a].worldName && r[a].backupFile == entries[a].backupFile;
    }
  }

  /** Whether a text, type or mark that was there is still there. */
  ghost predicate Keeps(a: HistoryEntry, b: HistoryEntry)
  {
    && a.worldName == b.worldName && a.backupFile == b.backupFile
    && (a.configId != "" ==> b.configId == a.configId)
    && (a.timestamp != "" ==> b.timestamp == a.timestamp)
    && (a.worldPath != "" ==> b.worldPath == a.worldPath)
    && (a.comment != "" ==> b.comment == a.comment)
    && (a.backupType != Untyped ==> b.backupType == a.backupType)
    && (a.isPartialBackup ==> b.isPartialBackup)
    && (a.isImportant ==> b.isImportant)
    && (a.isCloudArchived ==> b.isCloudArchived)
    && (a.cloudArchivedAtUtc != "" ==> b.cloudArchivedAtUtc == a.cloudArchivedAtUtc)
    && (a.cloudArchiveRemotePath != "" ==> b.cloudArchiveRemotePath == a.cloudArchiveRemotePath)
    && (a.cloudMetadataRecordRemotePath != "" ==> b.cloudMetadataRecordRemotePath == a.cloudMetadataRecordRemotePath)
    && (a.cloudMetadataStateRemotePath != "" ==> b.cloudMetadataStateRemotePath == a.cloudMetadataStateRemotePath)
  }

  /** Completing never drops, reorders or clears: the old entries are the start of the new list, field by field. */
  lemma UpsertNeverClears(entries: Entries, e: HistoryEntry, configId: string, i: nat)
    requires i < |entries|
    ensures var r := Upserted(entries, e, false, configId).1;
            |entries| <= |r| <= |entries| + 1 && Keeps(entries[i], r[i])
            && (i != FirstMatch(entries, e.worldName, e.backupFile) ==> r[i] == entries[i])
  {
  }

  /** Afterwards the entry is found, in the place of the old one if there was one, and lacks nothing the request had. */
  lemma UpsertFindsEntry(entries: Entries, e: HistoryEntry, configId: string)
    requires configId != ""
    ensures var r := Upserted(entries, e, false, configId).1;
            exists i: nat :: FirstIs(r, e, i) && !Lacks(r[i], e) && (if i < |entries| then FirstIs(entries, e, i) else NoMatch(entries, e))
  {
    var r := Upserted(entries, e, false, configId).1;
    var i := FirstMatch(entries, e.worldName, e.backupFile);
    FirstOrNone(entries, e);
    assert r[..i] == entries[..i];
    if i < |entries| { FilledCompletes(entries[i], e); }
    assert NoMatch(r[..i], e);
    assert FirstIs(r, e, i);
  }

  /** Asking again changes nothing, whichever way the entry got there. */
  lemma UpsertIdempotent(entries: Entries, e: HistoryEntry, configId: string)
    requires configId != ""
    ensures var r := Upserted(entries, e, false, configId).1;
            Upserted(r, e, false, configId) == (false, r)
  {
    var r := Upserted(entries, e, false, configId).1;
    UpsertFindsEntry(entries, e, configId);
    FirstOrNone(r, e);
    var i := FirstMatch(r, e.worldName, e.backupFile);
    FilledCompletes(r[i], e);
    assert r[i := r[i]] == r;
  }

  /** Something is to be written for a request. */
  ghost predicate Needed(entries: Entries, e: HistoryEntry, overwrite: bool)
  {
    overwrite || NoMatch(entries, e) || exists i: nat :: FirstIs(entries, e, i) && Lacks(entries[i], e)
  }

  /** The manager's request. `blocked` keeps the repository in memory only. */
  method UpsertHistoryEntry(store: HistoryStore, configId: string, e: HistoryEntry, overwrite: bool, blocked: bool,
                            saves: bool) returns (ok: bool)
    modifies store
    ensures var before := old(store.Model());
            var entries := EntriesOf(before.published, configId);
            && ok == (configId != "" && e.worldName != "" && e.backupFile.Named? && Needed(entries, e, overwrite)
                      && (blocked || saves))
            && (ok ==> exists now :: UpsertDone(entries, e, overwrite, configId, true, now)
                                     && store.Model().published == before.published[configId := now])
            && (!ok ==> store.Model().published == before.published)
            && store.Model().file == if ok && !blocked then store.Model().published else before.file
  {
    ghost var entries := EntriesOf(store.Model().published, configId);
    UpsertedDone(entries, e, overwrite, configId);
    FirstOrNone(entries, e);
    if e.worldName == "" || e.backupFile == NoArchive { return false; }
    var result := store.Mutate(configId, !blocked, saves, entries => Upserted(entries, e, overwrite, configId));
    ok := result.changed && (result.persisted || blocked);
  }

  // ---- removing entries ----

  function Without(entries: Entries, drop: HistoryEntry -> bool): Entries
  {
    if entries == [] then []
    else
      var front, last := entries[..|entries| - 1], entries[|entries| - 1];
      Without(front, drop) + if drop(last) then [] else [last]
  }

  method EraseIf(entries: Entries, drop: HistoryEntry -> bool) returns (r: Entries)
    ensures r == Without(entries, drop)
  {
    r := [];
    for i := 0 to |entries|
      invariant r == Without(entries[..i], drop)
    {
      assert entries[..i + 1][..i] == entries[..i];
      if !drop(entries[i]) { r := r + [entries[i]]; }
    }
    assert entries[..|entries|] == entries;
  }

  /** Exactly the chosen entries go, and nothing of the rest is repeated. */
  lemma {:induction false} WithoutIsExact(entries: Entries, drop: HistoryEntry -> bool, x: HistoryEntry)
    ensures multiset(Without(entries, drop))[x] == if drop(x) then 0 else multiset(entries)[x]
  {
    if entries != [] {
      var front, last := entries[..|entries| - 1], entries[|entries| - 1];
      assert entries == front + [last];
      WithoutIsExact(front, drop, x);
    }
  }

  /** The rest keeps its order: removing works through the list piece by piece. */
  lemma {:induction false} WithoutSplits(a: Entries, b: Entries, drop: HistoryEntry -> bool)
    ensures Without(a + b, drop) == Without(a, drop) + Without(b, drop)
    decreases |b|
  {
    if b == [] {
      assert a + b == a;
    } else {
      var front, last := b[..|b| - 1], b[|b| - 1];
      assert (a + b)[..|a + b| - 1] == a + front && (a + b)[|a + b| - 1] == last;
      WithoutSplits(a, front, drop);
    }
  }

  lemma {:induction false} WithoutShortens(entries: Entries, drop: HistoryEntry -> bool)
    ensures |Without(entries, drop)| <= |entries|
    ensures |Without(entries, drop)| == |entries| ==> Without(entries, drop) == entries
  {
    if entries != [] { WithoutShortens(entries[..|entries| - 1], drop); }
  }

  /** The reported number is what disappeared from the published list: zero when the save failed. */
  method RemoveHistoryEntriesIf(store: HistoryStore, configId: string, drop: HistoryEntry -> bool, blocked: bool,
                                saves: bool) returns (ok: bool, removedCount: nat)
    modifies store
    ensures var before, after := old(store.Model()), store.Model();
            removedCount == |EntriesOf(before.published, configId)| - |EntriesOf(after.published, configId)|
            && (ok ==> configId != "" ==> EntriesOf(after.published, configId) == Without(EntriesOf(before.published, configId), drop))
            && (!ok ==> after == before)
            && after.file == (if removedCount != 0 && !blocked then after.published else before.file)
            && (ok <==> blocked || saves || configId == ""
                        || Without(EntriesOf(before.published, configId), drop) == EntriesOf(before.published, configId))
  {
    ghost var entries := EntriesOf(store.Model().published, configId);
    WithoutShortens(entries, drop);
    var view := store.EntriesForConfig(configId);
    var kept := EraseIf(view.items, drop);
    var removed := |view.items| - |kept|;
    var result := store.Mutate(configId, !blocked, saves, es => (|Without(es, drop)| != |es|, Without(es, drop)));
    ok := !result.changed || result.persisted || blocked;
    removedCount := if result.changed && (result.persisted || blocked) then removed else 0;
  }

  /** A reader's list stays what it was through any sequence of requests. */
  method ReadThenServe(store: HistoryStore, configId: string, ops: seq<Operation>) returns (view: View)
    modifies store
    ensures view.items == EntriesOf(old(store.Model()).published, configId)
    ensures store.Model() == Run(old(store.Model()), ops)
  {
    view := store.EntriesForConfig(configId);
    for i := 0 to |ops|
      invariant view.items == EntriesOf(old(store.Model()).published, configId)
      invariant Run(old(store.Model()), ops) == Run(store.Model(), ops[i..])
    {
      assert ops[i..][1..] == ops[i + 1..];
      match ops[i]
      case Mutation(c, persist, saves, mutator) => var _ := store.Mutate(c, persist, saves, mutator);
      case Replacement(history, persist, saves) => var _ := store.ReplaceAll(history, persist, saves);
    }
  }
}
