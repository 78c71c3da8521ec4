/** Writing and reading one change record. */
module RecordJson {
  import opened Names
  import opened Ordering
  import opened Format
  import opened JsonEvents

  datatype ListKind = AddedList | ModifiedList | DeletedList | FullList

  datatype RecordDoc = RecordDoc(
    archive: string, kind: string, basedOn: string, previous: string, created: string,
    added: seq<string>, modified: seq<string>, deleted: seq<string>, full: seq<string>)
  {
    function Files(k: ListKind): seq<string>
    {
      match k
      case AddedList => added
      case ModifiedList => modified
      case DeletedList => deleted
      case FullList => full
    }

    function WithFiles(k: ListKind, values: seq<string>): RecordDoc
    {
      match k
      case AddedList => this.(added := values)
      case ModifiedList => this.(modified := values)
      case DeletedList => this.(deleted := values)
      case FullList => this.(full := values)
    }
  }

  const EMPTY_DOC := RecordDoc("", "", "", "", "", [], [], [], [])

  function ListKindOf(key: string): Option<ListKind>
  {
    if key == "AddedFiles" then Some(AddedList)
    else if key == "ModifiedFiles" then Some(ModifiedList)
    else if key == "DeletedFiles" then Some(DeletedList)
    else if key == "FullFileList" then Some(FullList)
    else None
  }

  // ---- the writer ----

  predicate AllNormalize(values: seq<string>)
  {
    forall i | 0 <= i < |values| :: NormalizeRelativeEntry(values[i]).Some?
  }

  function Normalized(values: seq<string>): (r: seq<string>)
    requires AllNormalize(values)
    ensures |r| == |values|
  {
    seq(|values|, i requires 0 <= i < |values| => NormalizeRelativeEntry(values[i]).value)
  }

  function Strings(values: seq<string>): seq<Json>
  {
    seq(|values|, i requires 0 <= i < |values| => JString(values[i]))
  }

  predicate Writable(r: RecordDoc)
  {
    AllNormalize(r.added) && AllNormalize(r.modified) && AllNormalize(r.deleted) && AllNormalize(r.full)
  }

  function TextMembers(r: RecordDoc): seq<Member>
  {
    [Member("ArchiveFileName", JString(r.archive)), Member("BackupType", JString(r.kind)),
     Member("BasedOnFullBackup", JString(r.basedOn)), Member("PreviousBackupFileName", JString(r.previous)),
     Member("CreatedAtUtc", JString(r.created))]
  }

  function ListMembers(r: RecordDoc): seq<Member>
    requires Writable(r)
  {
    [Member("AddedFiles", JArray(Strings(Normalized(r.added)))),
     Member("ModifiedFiles", JArray(Strings(Normalized(r.modified)))),
     Member("DeletedFiles", JArray(Strings(Normalized(r.deleted)))),
     Member("FullFileList", JArray(Strings(Normalized(r.full))))]
  }

  /** The document of a record. */
  function Document(r: RecordDoc): Json
    requires Writable(r)
  {
    JObject(TextMembers(r) + ListMembers(r))
  }

  lemma {:induction false} LastItem(front: seq<Json>, v: Json)
    ensures ItemEvents(front + [v]) == ItemEvents(front) + Events(v)
    decreases |front|
  {
    if front == [] {
      assert [] + [v] == [v];
    } else {
      assert (front + [v])[1..] == front[1..] + [v];
      LastItem(front[1..], v);
    }
  }

  method WriteStringArray(key: string, values: seq<string>) returns (ok: bool, events: seq<Event>)
    ensures ok <==> AllNormalize(values)
    ensures ok ==> events == [Key(key)] + Events(JArray(Strings(Normalized(values))))
  {
    events := [Key(key), StartArray];
    for i := 0 to |values|
      invariant AllNormalize(values[..i])
      invariant events == [Key(key), StartArray] + ItemEvents(Strings(Normalized(values[..i])))
    {
      var normalized := NormalizeRelativeEntry(values[i]);
      if normalized.None? { return false, events; }
      events := events + [String(normalized.value)];
      assert values[..i + 1] == values[..i] + [values[i]];
      assert Normalized(values[..i + 1]) == Normalized(values[..i]) + [normalized.value];
      assert Strings(Normalized(values[..i + 1])) == Strings(Normalized(values[..i])) + [JString(normalized.value)];
      LastItem(Strings(Normalized(values[..i])), JString(normalized.value));
    }
    assert values[..|values|] == values;
    ok, events := true, events + [EndArray];
  }

  method WriteRecord(r: RecordDoc) returns (ok: bool, events: seq<Event>)
    ensures ok <==> Writable(r)
    ensures ok ==> events == Events(Document(r))
  {
    events := [StartObject, Key("ArchiveFileName"), String(r.archive), Key("BackupType"), String(r.kind),
               Key("BasedOnFullBackup"), String(r.basedOn), Key("PreviousBackupFileName"), String(r.previous),
               Key("CreatedAtUtc"), String(r.created)];
    var added, modified, deleted, full;
    ok, added := WriteStringArray("AddedFiles", r.added);
    if !ok { return; }
    ok, modified := WriteStringArray("ModifiedFiles", r.modified);
    if !ok { return; }
    ok, deleted := WriteStringArray("DeletedFiles", r.deleted);
    if !ok { return; }
    ok, full := WriteStringArray("FullFileList", r.full);
    if !ok { return; }
    DocumentWritten(r, events, added, modified, deleted, full);
    events := events + added + modified + deleted + full + [EndObject];
  }

  lemma DocumentWritten(r: RecordDoc, text: seq<Event>, added: seq<Event>, modified: seq<Event>, deleted: seq<Event>, full: seq<Event>)
    requires Writable(r)
    requires text == [StartObject, Key("ArchiveFileName"), String(r.archive), Key("BackupType"), String(r.kind),
                      Key("BasedOnFullBackup"), String(r.basedOn), Key("PreviousBackupFileName"), String(r.previous),
                      Key("CreatedAtUtc"), String(r.created)]
    requires added == [Key("AddedFiles")] + Events(JArray(Strings(Normalized(r.added))))
    requires modified == [Key("ModifiedFiles")] + Events(JArray(Strings(Normalized(r.modified))))
    requires deleted == [Key("DeletedFiles")] + Events(JArray(Strings(Normalized(r.deleted))))
    requires full == [Key("FullFileList")] + Events(JArray(Strings(Normalized(r.full))))
    ensures text + added + modified + deleted + full + [EndObject] == Events(Document(r))
  {
    TextMembersWritten(r);
    ListMembersWritten(r);
    MemberEventsAppend(TextMembers(r), ListMembers(r));
    Grouped(text, MemberEvents(TextMembers(r)), added, modified, deleted, full);
  }

  lemma Grouped(text: seq<Event>, texts: seq<Event>, a: seq<Event>, b: seq<Event>, c: seq<Event>, d: seq<Event>)
    requires text == [StartObject] + texts
    ensures text + a + b + c + d + [EndObject] == [StartObject] + (texts + (a + b + c + d)) + [EndObject]
  {}

  lemma TextMembersWritten(r: RecordDoc)
    ensures MemberEvents(TextMembers(r))
         == [Key("ArchiveFileName"), String(r.archive), Key("BackupType"), String(r.kind),
             Key("BasedOnFullBackup"), String(r.basedOn), Key("PreviousBackupFileName"), String(r.previous),
             Key("CreatedAtUtc"), String(r.created)]
  {
    var m := TextMembers(r);
    TextWritten([], "ArchiveFileName", r.archive);
    TextWritten(m[..1], "BackupType", r.kind);
    TextWritten(m[..2], "BasedOnFullBackup", r.basedOn);
    TextWritten(m[..3], "PreviousBackupFileName", r.previous);
    TextWritten(m[..4], "CreatedAtUtc", r.created);
    assert [] + [m[0]] == m[..1] && m[..1] + [m[1]] == m[..2] && m[..2] + [m[2]] == m[..3] && m[..3] + [m[3]] == m[..4]
        && m[..4] + [m[4]] == m;
  }

  lemma ListMembersWritten(r: RecordDoc)
    requires Writable(r)
    ensures MemberEvents(ListMembers(r))
         == [Key("AddedFiles")] + Events(JArray(Strings(Normalized(r.added))))
          + ([Key("ModifiedFiles")] + Events(JArray(Strings(Normalized(r.modified)))))
          + ([Key("DeletedFiles")] + Events(JArray(Strings(Normalized(r.deleted)))))
          + ([Key("FullFileList")] + Events(JArray(Strings(Normalized(r.full)))))
  {
    var m := ListMembers(r);
    assert MemberEvents([]) == [];
    LastMember([], m[0]);
    LastMember(m[..1], m[1]);
    LastMember(m[..2], m[2]);
    LastMember(m[..3], m[3]);
    assert [] + [m[0]] == m[..1] && m[..1] + [m[1]] == m[..2] && m[..2] + [m[2]] == m[..3] && m[..3] + [m[3]] == m;
  }

  // ---- the reader ----

  datatype FrameKind = Root | KnownArray(list: ListKind) | IgnoredObject | IgnoredArray

  datatype Frame = Frame(kind: FrameKind, key: string)

  datatype Reader = Reader(frames: seq<Frame>, doc: RecordDoc, rootStarted: bool, rootEnded: bool)
  {
    function Top(): Frame
      requires frames != []
    {
      Peek(frames)
    }

    function Pop(): Reader
      requires frames != []
    {
      this.(frames := Popped(frames))
    }

    function Push(f: Frame): Reader { this.(frames := Pushed(frames, f)) }
  }

  const NEW_READER := Reader([], EMPTY_DOC, false, false)

  function SetText(doc: RecordDoc, key: string, value: string): RecordDoc
  {
    if key == "ArchiveFileName" then doc.(archive := value)
    else if key == "BackupType" then doc.(kind := value)
    else if key == "BasedOnFullBackup" then doc.(basedOn := value)
    else if key == "PreviousBackupFileName" then doc.(previous := value)
    else if key == "CreatedAtUtc" then doc.(created := value)
    else doc
  }

  predicate ExpectsList(f: Frame) { f.kind == Root && ListKindOf(f.key).Some? }

  predicate Primitive(r: Reader)
  {
    r.frames != [] && !r.Top().kind.KnownArray? && !ExpectsList(r.Top())
  }

  /** No entry twice; the source sorts the list and looks for equal neighbours. */
  predicate AllDifferent(values: seq<string>)
  {
    forall i, j | 0 <= i < j < |values| :: values[i] != values[j]
  }

  /** One callback of the reader; None stops the parse. */
  function Step(r: Reader, e: Event): Option<Reader>
  {
    match e
    case Null => if Primitive(r) then Some(r) else None
    case Boolean(_) => if Primitive(r) then Some(r) else None
    case NumberInteger(_) => if Primitive(r) then Some(r) else None
    case NumberUnsigned(_) => if Primitive(r) then Some(r) else None
    case NumberFloat => if Primitive(r) then Some(r) else None
    case String(s) =>
      if r.frames == [] || ExpectsList(r.Top()) then None
      else if r.Top().kind.KnownArray? then
        var k, entry := r.Top().kind.list, NormalizeRelativeEntry(s);
        if entry.None? then None else Some(r.(doc := r.doc.WithFiles(k, r.doc.Files(k) + [entry.value])))
      else if r.Top().kind == Root then Some(r.(doc := SetText(r.doc, r.Top().key, s)))
      else Some(r)
    case StartObject =>
      if r.frames == [] then
        if r.rootStarted then None else Some(r.Push(Frame(Root, "")).(rootStarted := true))
      else if r.Top().kind.KnownArray? || ExpectsList(r.Top()) then None
      else Some(r.Push(Frame(IgnoredObject, "")))
    case Key(k) =>
      if r.frames == [] then None
      else
        var named := r.Pop().Push(r.Top().(key := k));
        Some(if r.Top().kind == Root then named.(doc := SetText(r.doc, k, "")) else named)
    case EndObject =>
      if r.frames == [] then None
      else if r.Top().kind != Root then Some(r.Pop())
      else if r.Pop().frames != [] then None
      else Some(r.Pop().(rootEnded := true))
    case StartArray =>
      if r.frames == [] || r.Top().kind.KnownArray? then None
      else if ExpectsList(r.Top()) then
        var k := ListKindOf(r.Top().key).value;
        Some(r.Push(Frame(KnownArray(k), "")).(doc := r.doc.WithFiles(k, [])))
      else Some(r.Push(Frame(IgnoredArray, "")))
    case EndArray =>
      if r.frames == [] then None
      else if r.Top().kind.KnownArray? then
        var k := r.Top().kind.list;
        if AllDifferent(r.doc.Files(k)) then Some(r.Pop().(doc := r.doc.WithFiles(k, Listing(Elems(r.doc.Files(k)))))) else None
      else if r.Top().kind == IgnoredArray then Some(r.Pop())
      else None
  }

  function Run(r: Reader, events: seq<Event>): Option<Reader>
    decreases events
  {
    if events == [] then Some(r)
    else
      var next := Step(r, events[0]);
      if next.None? then None else Run(next.value, events[1..])
  }

  predicate SafeReferences(doc: RecordDoc)
  {
    && IsSafeArchiveReference(doc.archive, false)
    && IsSafeArchiveReference(doc.basedOn, true) && IsSafeArchiveReference(doc.previous, true)
  }

  /** The name the caller looked the record up by; an empty one accepts any. */
  predicate Answers(doc: RecordDoc, asked: string) { asked == "" || Lower(doc.archive) == Lower(asked) }

  function Complete(r: Reader, asked: string): Option<RecordDoc>
  {
    if r.rootEnded && r.frames == [] && SafeReferences(r.doc) && Answers(r.doc, asked) then Some(r.doc) else None
  }

  function Parse(events: seq<Event>, asked: string): Option<RecordDoc>
  {
    var r := Run(NEW_READER, events);
    if r.None? then None else Complete(r.value, asked)
  }

  /** The reader as the parser drives it. */
  class RecordSaxHandler {
    var frames: seq<Frame>
    var doc: RecordDoc
    var rootStarted: bool
    var rootEnded: bool

    function Model(): Reader
      reads this
    {
      Reader(frames, doc, rootStarted, rootEnded)
    }

    constructor ()
      ensures Model() == NEW_READER
    {
      frames, doc, rootStarted, rootEnded := [], EMPTY_DOC, false, false;
    }

    method OnString(value: string) returns (ok: bool)
      modifies this`doc
      ensures ok <==> Step(old(Model()), String(value)).Some?
      ensures ok ==> Model() == Step(old(Model()), String(value)).value
    {
      if frames == [] { return false; }
      var frame := Peek(frames);
      if frame.kind.KnownArray? {
        var normalized := NormalizeRelativeEntry(value);
        if normalized.None? { return false; }
        doc := doc.WithFiles(frame.kind.list, doc.Files(frame.kind.list) + [normalized.value]);
        return true;
      }
      if frame.kind != Root { return true; }
      if ListKindOf(frame.key).Some? { return false; }
      doc := SetText(doc, frame.key, value);
      ok := true;
    }

    method OnStartObject() returns (ok: bool)
      modifies this
      ensures ok <==> Step(old(Model()), StartObject).Some?
      ensures ok ==> Model() == Step(old(Model()), StartObject).value
    {
      if frames == [] {
        if rootStarted { return false; }
        rootStarted, frames := true, Pushed(frames, Frame(Root, ""));
        return true;
      }
      var parent := Peek(frames);
      if parent.kind.KnownArray? || (parent.kind == Root && ListKindOf(parent.key).Some?) { return false; }
      frames := Pushed(frames, Frame(IgnoredObject, ""));
      ok := true;
    }

    method OnKey(value: string) returns (ok: bool)
      modifies this`frames, this`doc
      ensures ok <==> Step(old(Model()), Key(value)).Some?
      ensures ok ==> Model() == Step(old(Model()), Key(value)).value
    {
      if frames == [] { return false; }
      var frame := Peek(frames).(key := value);
      frames := Pushed(Popped(frames), frame);
      if frame.kind == Root { doc := SetText(doc, value, ""); }
      ok := true;
    }

    method OnEndObject() returns (ok: bool)
      modifies this
      ensures ok <==> Step(old(Model()), EndObject).Some?
      ensures ok ==> Model() == Step(old(Model()), EndObject).value
    {
      if frames == [] { return false; }
      var kind := Peek(frames).kind;
      frames := Popped(frames);
      if kind == Root {
        if frames != [] { return false; }
        rootEnded := true;
      }
      ok := true;
    }

    method OnStartArray() returns (ok: bool)
      modifies this
      ensures ok <==> Step(old(Model()), StartArray).Some?
      ensures ok ==> Model() == Step(old(Model()), StartArray).value
    {
      if frames == [] { return false; }
      var parent := Peek(frames);
      if parent.kind.KnownArray? { return false; }
      if parent.kind == Root {
        var list := ListKindOf(parent.key);
        if list.Some? {
          doc := doc.WithFiles(list.value, []);
          frames := Pushed(frames, Frame(KnownArray(list.value), ""));
          return true;
        }
      }
      frames := Pushed(frames, Frame(IgnoredArray, ""));
      ok := true;
    }

    method OnEndArray() returns (ok: bool)
      modifies this
      ensures ok <==> Step(old(Model()), EndArray).Some?
      ensures ok ==> Model() == Step(old(Model()), EndArray).value
    {
      if frames == [] { return false; }
      var frame := Peek(frames);
      frames := Popped(frames);
      if frame.kind.KnownArray? {
        var values := doc.Files(frame.kind.list);
        if !AllDifferent(values) { return false; }
        doc := doc.WithFiles(frame.kind.list, Listing(Elems(values)));
      } else if frame.kind != IgnoredArray {
        return false;
      }
      ok := true;
    }

    method OnEvent(e: Event) returns (ok: bool)
      modifies this
      ensures ok <==> Step(old(Model()), e).Some?
      ensures ok ==> Model() == Step(old(Model()), e).value
    {
      match e
      case String(s) => ok := OnString(s);
      case StartObject => ok := OnStartObject();
      case Key(k) => ok := OnKey(k);
      case EndObject => ok := OnEndObject();
      case StartArray => ok := OnStartArray();
      case EndArray => ok := OnEndArray();
      case _ => ok := Primitive(Model());
    }
  }

  method LoadRecord(events: seq<Event>, asked: string) returns (result: Option<RecordDoc>)
    ensures result == Parse(events, asked)
  {
    var handler := new RecordSaxHandler();
    for i := 0 to |events|
      invariant Run(NEW_READER, events) == Run(handler.Model(), events[i..])
    {
      var ok := handler.OnEvent(events[i]);
      assert events[i..][1..] == events[i + 1..];
      if !ok { return None; }
    }
    result := Complete(handler.Model(), asked);
  }

  // ---- running the reader over parts of a document ----

  lemma {:induction false} RunAppend(r: Reader, a: seq<Event>, b: seq<Event>)
    ensures Run(r, a + b) == if Run(r, a).None? then None else Run(Run(r, a).value, b)
    decreases a
  {
    if a == [] {
      assert a + b == b;
    } else {
      assert (a + b)[1..] == a[1..] + b;
      var next := Step(r, a[0]);
      if next.Some? { RunAppend(next.value, a[1..], b); }
    }
  }

  lemma RunStep(r: Reader, e: Event, rest: seq<Event>)
    ensures Run(r, [e] + rest) == if Step(r, e).None? then None else Run(Step(r, e).value, rest)
  {
    assert ([e] + rest)[1..] == rest;
  }

  // ---- what a document says ----

  function EntryOf(v: Json): Option<string>
  {
    if v.JString? then NormalizeRelativeEntry(v.s) else None
  }

  predicate AllEntries(items: seq<Json>)
  {
    forall i | 0 <= i < |items| :: EntryOf(items[i]).Some?
  }

  function Entries(items: seq<Json>): seq<string>
    requires AllEntries(items)
  {
    seq(|items|, i requires 0 <= i < |items| => EntryOf(items[i]).value)
  }

  /** An array of relative paths without repeats. */
  predicate IsPathList(v: Json)
  {
    && v.JArray? && AllEntries(v.items)
    && forall i, j | 0 <= i < j < |v.items| :: Entries(v.items)[i] != Entries(v.items)[j]
  }

  function FilesUnder(members: seq<Member>, key: string): seq<string>
  {
    var v := Find(members, key);
    if v.Some? && IsPathList(v.value) then Listing(Elems(Entries(v.value.items))) else []
  }

  predicate ListsReadable(members: seq<Member>)
  {
    forall i | 0 <= i < |members| && (|| members[i].key == "AddedFiles" || members[i].key == "ModifiedFiles"
                                      || members[i].key == "DeletedFiles" || members[i].key == "FullFileList") ::
      IsPathList(members[i].value)
  }

  /** The record an object describes: each text and each sorted list under its key. */
  function Said(members: seq<Member>): RecordDoc
  {
    RecordDoc(TextUnder(members, "ArchiveFileName"), TextUnder(members, "BackupType"),
              TextUnder(members, "BasedOnFullBackup"), TextUnder(members, "PreviousBackupFileName"),
              TextUnder(members, "CreatedAtUtc"),
              FilesUnder(members, "AddedFiles"), FilesUnder(members, "ModifiedFiles"),
              FilesUnder(members, "DeletedFiles"), FilesUnder(members, "FullFileList"))
  }

  function AtRoot(key: string, doc: RecordDoc): Reader
  {
    Reader([], doc, true, false).Push(Frame(Root, key))
  }

  function InList(key: string, doc: RecordDoc, k: ListKind): Reader
  {
    AtRoot(key, doc).Push(Frame(KnownArray(k), ""))
  }

  /** A known list takes over its entries in order and refuses anything else. */
  lemma {:induction false} ItemsRun(key: string, doc: RecordDoc, k: ListKind, items: seq<Json>)
    ensures Run(InList(key, doc.WithFiles(k, []), k), ItemEvents(items))
         == if AllEntries(items) then Some(InList(key, doc.WithFiles(k, Entries(items)), k)) else None
    decreases |items|
  {
    var start := InList(key, doc.WithFiles(k, []), k);
    if items == [] {
      assert Entries(items) == [];
    } else {
      var front, v := items[..|items| - 1], items[|items| - 1];
      assert items == front + [v];
      LastItem(front, v);
      ItemsRun(key, doc, k, front);
      RunAppend(start, ItemEvents(front), Events(v));
      if AllEntries(front) {
        ItemRuns(key, doc, k, Entries(front), v);
        if EntryOf(v).Some? {
          assert AllEntries(items);
          assert Entries(items) == Entries(front) + [EntryOf(v).value];
        }
      }
    }
  }

  lemma ListTop(key: string, doc: RecordDoc, k: ListKind)
    ensures InList(key, doc, k).frames != [] && InList(key, doc, k).Top() == Frame(KnownArray(k), "") && InList(key, doc, k).doc == doc
    ensures forall other: RecordDoc :: InList(key, doc, k).(doc := other) == InList(key, other, k)
  {}

  lemma EntryStep(r: Reader, e: Event)
    requires r.frames != [] && r.Top().kind.KnownArray?
    requires !e.Key? && !e.EndObject? && !e.EndArray?
    ensures var k := r.Top().kind.list;
      Step(r, e) == if e.String? && NormalizeRelativeEntry(e.s).Some?
                    then Some(r.(doc := r.doc.WithFiles(k, r.doc.Files(k) + [NormalizeRelativeEntry(e.s).value]))) else None
  {}

  lemma FilesAgain(doc: RecordDoc, k: ListKind, a: seq<string>, b: seq<string>)
    ensures doc.WithFiles(k, a).Files(k) == a && doc.WithFiles(k, a).WithFiles(k, b) == doc.WithFiles(k, b)
  {}

  lemma StartsPlain(v: Json)
    ensures Events(v) != []
    ensures var e := Events(v)[0];
      (e.StartArray? <==> v.JArray?) && (e.String? <==> v.JString?) && !e.Key? && !e.EndObject? && !e.EndArray?
    ensures v.JString? ==> Events(v) == [String(v.s)]
  {}

  lemma ItemRuns(key: string, doc: RecordDoc, k: ListKind, done: seq<string>, v: Json)
    ensures Run(InList(key, doc.WithFiles(k, done), k), Events(v))
         == if EntryOf(v).Some? then Some(InList(key, doc.WithFiles(k, done + [EntryOf(v).value]), k)) else None
  {
    var r := InList(key, doc.WithFiles(k, done), k);
    ListTop(key, doc.WithFiles(k, done), k);
    StartsPlain(v);
    EntryStep(r, Events(v)[0]);
    if EntryOf(v).Some? {
      FilesAgain(doc, k, done, done + [EntryOf(v).value]);
      assert [String(v.s)] == [String(v.s)] + [];
      RunStep(r, String(v.s), []);
    }
  }

  lemma ListCloses(key: string, doc: RecordDoc, k: ListKind, values: seq<string>)
    ensures Run(InList(key, doc.WithFiles(k, values), k), [EndArray])
         == if AllDifferent(values) then Some(AtRoot(key, doc.WithFiles(k, Listing(Elems(values))))) else None
  {
    assert [EndArray] == [EndArray] + [];
    RunStep(InList(key, doc.WithFiles(k, values), k), EndArray, []);
  }

  lemma RootTop(key: string, doc: RecordDoc)
    ensures AtRoot(key, doc).frames != [] && AtRoot(key, doc).Top() == Frame(Root, key) && AtRoot(key, doc).doc == doc
  {}

  lemma RefusedStep(r: Reader, e: Event)
    requires r.frames != [] && ExpectsList(r.Top())
    requires !e.StartArray? && !e.Key? && !e.EndObject? && !e.EndArray?
    ensures Step(r, e).None?
  {}

  lemma ListRefuses(key: string, doc: RecordDoc, events: seq<Event>)
    requires ListKindOf(key).Some? && events != []
    requires !events[0].StartArray? && !events[0].Key? && !events[0].EndObject? && !events[0].EndArray?
    ensures Run(AtRoot(key, doc), events).None?
  {
    RootTop(key, doc);
    RefusedStep(AtRoot(key, doc), events[0]);
  }

  lemma ListArrayRuns(key: string, doc: RecordDoc, k: ListKind, items: seq<Json>)
    requires ListKindOf(key) == Some(k)
    ensures Run(AtRoot(key, doc), [StartArray] + (ItemEvents(items) + [EndArray]))
         == if AllEntries(items) && AllDifferent(Entries(items))
            then Some(AtRoot(key, doc.WithFiles(k, Listing(Elems(Entries(items)))))) else None
  {
    var inside := InList(key, doc.WithFiles(k, []), k);
    RunStep(AtRoot(key, doc), StartArray, ItemEvents(items) + [EndArray]);
    ItemsRun(key, doc, k, items);
    RunAppend(inside, ItemEvents(items), [EndArray]);
    if AllEntries(items) { ListCloses(key, doc, k, Entries(items)); }
  }

  /** The value of a list's key fills that list, or stops the parse. */
  lemma ListValueRuns(key: string, doc: RecordDoc, k: ListKind, v: Json)
    requires ListKindOf(key) == Some(k)
    ensures Run(AtRoot(key, doc), Events(v))
         == if IsPathList(v) then Some(AtRoot(key, doc.WithFiles(k, Listing(Elems(Entries(v.items)))))) else None
  {
    if v.JArray? {
      ArrayEvents(v);
      ListArrayRuns(key, doc, k, v.items);
    } else {
      StartsPlain(v);
      ListRefuses(key, doc, Events(v));
    }
  }

  lemma PlainStep(r: Reader, e: Event)
    requires r.frames != [] && r.Top().kind == Root && ListKindOf(r.Top().key).None?
    requires e.Null? || e.Boolean? || e.NumberInteger? || e.NumberUnsigned? || e.NumberFloat? || e.String?
    ensures Step(r, e) == Some(if e.String? then r.(doc := SetText(r.doc, r.Top().key, e.s)) else r)
  {}

  lemma ScalarStep(key: string, doc: RecordDoc, e: Event)
    requires ListKindOf(key).None?
    requires e.Null? || e.Boolean? || e.NumberInteger? || e.NumberUnsigned? || e.NumberFloat? || e.String?
    ensures Run(AtRoot(key, doc), [e]) == Some(AtRoot(key, if e.String? then SetText(doc, key, e.s) else doc))
  {
    RootTop(key, doc);
    PlainStep(AtRoot(key, doc), e);
    assert [e] == [e] + [];
    RunStep(AtRoot(key, doc), e, []);
  }

  lemma ScalarRuns(key: string, doc: RecordDoc, v: Json)
    requires ListKindOf(key).None? && !v.JArray? && !v.JObject?
    ensures Run(AtRoot(key, doc), Events(v)) == Some(AtRoot(key, if v.JString? then SetText(doc, key, v.s) else doc))
  {
    match v
    case JNull => ScalarStep(key, doc, Null);
    case JBoolean(b) => ScalarStep(key, doc, Boolean(b));
    case JInteger(i) => ScalarStep(key, doc, NumberInteger(i));
    case JUnsigned(n) => ScalarStep(key, doc, NumberUnsigned(n));
    case JFloat => ScalarStep(key, doc, NumberFloat);
    case JString(s) => ScalarStep(key, doc, String(s));
  }

  /** The value of any other key sets at most the text of that key. */
  lemma OtherValueRuns(key: string, doc: RecordDoc, v: Json)
    requires ListKindOf(key).None?
    ensures Run(AtRoot(key, doc), Events(v))
         == Some(AtRoot(key, if v.JString? then SetText(doc, key, v.s) else doc))
  {
    var r := AtRoot(key, doc);
    if v.JArray? {
      IgnoresArray(r, v);
    } else if v.JObject? {
      IgnoresObject(r, v);
    } else {
      ScalarRuns(key, doc, v);
    }
  }

  /** What one more member at the end changes. */
  function After(doc: RecordDoc, m: Member): RecordDoc
  {
    var text, list := if m.value.JString? then m.value.s else "",
                      if IsPathList(m.value) then Listing(Elems(Entries(m.value.items))) else [];
    RecordDoc(
      if m.key == "ArchiveFileName" then text else doc.archive,
      if m.key == "BackupType" then text else doc.kind,
      if m.key == "BasedOnFullBackup" then text else doc.basedOn,
      if m.key == "PreviousBackupFileName" then text else doc.previous,
      if m.key == "CreatedAtUtc" then text else doc.created,
      if m.key == "AddedFiles" then list else doc.added,
      if m.key == "ModifiedFiles" then list else doc.modified,
      if m.key == "DeletedFiles" then list else doc.deleted,
      if m.key == "FullFileList" then list else doc.full)
  }

  lemma UnderAfter(front: seq<Member>, m: Member, key: string)
    ensures TextUnder(front + [m], key)
         == if m.key == key then (if m.value.JString? then m.value.s else "") else TextUnder(front, key)
    ensures FilesUnder(front + [m], key)
         == if m.key == key then (if IsPathList(m.value) then Listing(Elems(Entries(m.value.items))) else []) else FilesUnder(front, key)
  {
    var members := front + [m];
    assert members[|members| - 1] == m && members[..|members| - 1] == front;
  }

  lemma SaidAfter(front: seq<Member>, m: Member)
    ensures Said(front + [m]) == After(Said(front), m)
  {
    UnderAfter(front, m, "ArchiveFileName");
    UnderAfter(front, m, "BackupType");
    UnderAfter(front, m, "BasedOnFullBackup");
    UnderAfter(front, m, "PreviousBackupFileName");
    UnderAfter(front, m, "CreatedAtUtc");
    UnderAfter(front, m, "AddedFiles");
    UnderAfter(front, m, "ModifiedFiles");
    UnderAfter(front, m, "DeletedFiles");
    UnderAfter(front, m, "FullFileList");
  }

  predicate Reads(m: Member) { ListKindOf(m.key).Some? ==> IsPathList(m.value) }

  lemma ReadsOne(m: Member)
    ensures ListsReadable([m]) <==> Reads(m)
  {
    assert [m][0] == m;
  }

  lemma ListAfter(doc: RecordDoc, m: Member)
    requires ListKindOf(m.key).Some? && IsPathList(m.value)
    ensures After(doc, m) == doc.WithFiles(ListKindOf(m.key).value, Listing(Elems(Entries(m.value.items))))
    ensures SetText(doc, m.key, "") == doc
  {}

  lemma TextAfter(doc: RecordDoc, m: Member)
    requires ListKindOf(m.key).None?
    ensures After(doc, m) == if m.value.JString? then SetText(SetText(doc, m.key, ""), m.key, m.value.s) else SetText(doc, m.key, "")
  {}

  lemma KeyRuns(key: string, doc: RecordDoc, k: string, rest: seq<Event>)
    ensures Run(AtRoot(key, doc), [Key(k)] + rest) == Run(AtRoot(k, SetText(doc, k, "")), rest)
  {
    RunStep(AtRoot(key, doc), Key(k), rest);
  }

  lemma MemberRuns(key: string, doc: RecordDoc, m: Member)
    ensures Run(AtRoot(key, doc), [Key(m.key)] + Events(m.value)) == if Reads(m) then Some(AtRoot(m.key, After(doc, m))) else None
  {
    KeyRuns(key, doc, m.key, Events(m.value));
    if ListKindOf(m.key).Some? {
      assert SetText(doc, m.key, "") == doc;
      ListValueRuns(m.key, doc, ListKindOf(m.key).value, m.value);
      if IsPathList(m.value) { ListAfter(doc, m); }
    } else {
      OtherValueRuns(m.key, SetText(doc, m.key, ""), m.value);
      TextAfter(doc, m);
    }
  }

  lemma {:induction false} MembersRun(members: seq<Member>)
    ensures Run(AtRoot("", EMPTY_DOC), MemberEvents(members))
         == if ListsReadable(members) then Some(AtRoot(LastKey(members, ""), Said(members))) else None
    decreases |members|
  {
    if members == [] {
      assert Said(members) == EMPTY_DOC;
    } else {
      var front, m := members[..|members| - 1], members[|members| - 1];
      assert members == front + [m];
      LastMember(front, m);
      MembersRun(front);
      RunAppend(AtRoot("", EMPTY_DOC), MemberEvents(front), [Key(m.key)] + Events(m.value));
      ReadableAfter(front, m);
      ReadsOne(m);
      LastKeyOf(front, m, "");
      if ListsReadable(front) {
        MemberRuns(LastKey(front, ""), Said(front), m);
        SaidAfter(front, m);
      }
    }
  }

  lemma ReadableAfter(front: seq<Member>, m: Member)
    ensures ListsReadable(front + [m]) <==> ListsReadable(front) && ListsReadable([m])
  {
    var all := front + [m];
    assert forall i | 0 <= i < |front| :: all[i] == front[i];
    assert all[|front|] == m && [m][0] == m;
  }

  lemma RootOpens(rest: seq<Event>)
    ensures Run(NEW_READER, [StartObject] + rest) == Run(AtRoot("", EMPTY_DOC), rest)
  {
    assert Step(NEW_READER, StartObject) == Some(AtRoot("", EMPTY_DOC));
    RunStep(NEW_READER, StartObject, rest);
  }

  lemma RootRuns(body: seq<Event>)
    ensures Run(NEW_READER, [StartObject] + (body + [EndObject]))
         == if Run(AtRoot("", EMPTY_DOC), body).None? then None
            else Run(Run(AtRoot("", EMPTY_DOC), body).value, [EndObject])
  {
    RootOpens(body + [EndObject]);
    RunAppend(AtRoot("", EMPTY_DOC), body, [EndObject]);
  }

  lemma RootEnds(key: string, doc: RecordDoc)
    ensures Run(AtRoot(key, doc), [EndObject]) == Some(Reader([], doc, true, true))
  {
    assert [EndObject] == [EndObject] + [];
    RunStep(AtRoot(key, doc), EndObject, []);
  }

  lemma Completed(doc: RecordDoc, asked: string)
    ensures Complete(Reader([], doc, true, true), asked) == if SafeReferences(doc) && Answers(doc, asked) then Some(doc) else None
  {}

  lemma ObjectRuns(members: seq<Member>)
    ensures Run(NEW_READER, Events(JObject(members)))
         == if ListsReadable(members) then Some(Reader([], Said(members), true, true)) else None
  {
    ObjectEvents(JObject(members));
    RootRuns(MemberEvents(members));
    MembersRun(members);
    if ListsReadable(members) { RootEnds(LastKey(members, ""), Said(members)); }
  }

  /** The archive is named by a safe segment, the other references by one or not at all, and the name is the one asked
      for, up to letter case, or any when none is asked for. */
  predicate Acceptable(doc: RecordDoc, asked: string)
  {
    && IsSafeSinglePathSegment(doc.archive)
    && (doc.basedOn == "" || IsSafeSinglePathSegment(doc.basedOn))
    && (doc.previous == "" || IsSafeSinglePathSegment(doc.previous))
    && (asked == "" || Lower(doc.archive) == Lower(asked))
  }

  lemma AcceptableIs(doc: RecordDoc, asked: string)
    ensures Acceptable(doc, asked) <==> SafeReferences(doc) && Answers(doc, asked)
  {}

  /** Exactly what reading any document gives. */
  lemma DocumentReads(members: seq<Member>, asked: string)
    ensures Parse(Events(JObject(members)), asked)
         == if ListsReadable(members) && Acceptable(Said(members), asked) then Some(Said(members)) else None
  {
    ObjectRuns(members);
    Completed(Said(members), asked);
    AcceptableIs(Said(members), asked);
  }

  lemma OnlyObjectsParse(v: Json, asked: string)
    requires !v.JObject?
    ensures Parse(Events(v), asked).None?
  {
    assert Step(NEW_READER, Events(v)[0]).None?;
  }

  // ---- reading what was written ----

  ghost predicate AllSafe(values: seq<string>)
  {
    forall i | 0 <= i < |values| :: SafeRelative(values[i])
  }

  lemma NormalizedSafe(values: seq<string>)
    requires AllNormalize(values)
    ensures AllSafe(Normalized(values))
    ensures AllEntries(Strings(Normalized(values))) && Entries(Strings(Normalized(values))) == Normalized(values)
  {
    var n := Normalized(values);
    forall i | 0 <= i < |values| ensures SafeRelative(n[i]) && EntryOf(Strings(n)[i]) == Some(n[i]) {
      NormalizeIsStable(values[i]);
    }
    assert Entries(Strings(n)) == n;
  }

  function Sorted(values: seq<string>): seq<string>
    requires AllNormalize(values)
  {
    Listing(Elems(Normalized(values)))
  }

  /** What a written record reads back as. */
  function Canonical(r: RecordDoc): RecordDoc
    requires Writable(r)
  {
    r.(added := Sorted(r.added), modified := Sorted(r.modified), deleted := Sorted(r.deleted), full := Sorted(r.full))
  }

  predicate NoRepeats(r: RecordDoc)
    requires Writable(r)
  {
    && AllDifferent(Normalized(r.added)) && AllDifferent(Normalized(r.modified))
    && AllDifferent(Normalized(r.deleted)) && AllDifferent(Normalized(r.full))
  }

  lemma DocumentKeys(r: RecordDoc)
    requires Writable(r)
    ensures var m := Document(r).members;
      && |m| == 9 && m[0].key == "ArchiveFileName" && m[1].key == "BackupType" && m[2].key == "BasedOnFullBackup"
      && m[3].key == "PreviousBackupFileName" && m[4].key == "CreatedAtUtc" && m[5].key == "AddedFiles"
      && m[6].key == "ModifiedFiles" && m[7].key == "DeletedFiles" && m[8].key == "FullFileList"
  {}

  lemma PathsAt(members: seq<Member>, i: nat, key: string, values: seq<string>)
    requires AllNormalize(values) && i < |members| && members[i] == Member(key, JArray(Strings(Normalized(values))))
    requires forall j | i < j < |members| :: members[j].key != key
    ensures IsPathList(members[i].value) <==> AllDifferent(Normalized(values))
    ensures AllDifferent(Normalized(values)) ==> FilesUnder(members, key) == Sorted(values)
  {
    FoundAt(members, key, i);
    NormalizedSafe(values);
  }

  lemma ListsWritten(r: RecordDoc, m: seq<Member>)
    requires Writable(r) && m == Document(r).members
    ensures IsPathList(m[5].value) && IsPathList(m[6].value) && IsPathList(m[7].value) && IsPathList(m[8].value) <==> NoRepeats(r)
    ensures NoRepeats(r) ==>
      && FilesUnder(m, "AddedFiles") == Sorted(r.added) && FilesUnder(m, "ModifiedFiles") == Sorted(r.modified)
      && FilesUnder(m, "DeletedFiles") == Sorted(r.deleted) && FilesUnder(m, "FullFileList") == Sorted(r.full)
  {
    DocumentKeys(r);
    PathsAt(m, 5, "AddedFiles", r.added);
    PathsAt(m, 6, "ModifiedFiles", r.modified);
    PathsAt(m, 7, "DeletedFiles", r.deleted);
    PathsAt(m, 8, "FullFileList", r.full);
  }

  lemma TextsSaid(r: RecordDoc, m: seq<Member>)
    requires Writable(r) && m == Document(r).members
    ensures TextUnder(m, "ArchiveFileName") == r.archive && TextUnder(m, "BackupType") == r.kind
    ensures TextUnder(m, "BasedOnFullBackup") == r.basedOn && TextUnder(m, "PreviousBackupFileName") == r.previous
    ensures TextUnder(m, "CreatedAtUtc") == r.created
  {
    DocumentKeys(r);
    TextAt(m, 0, "ArchiveFileName", r.archive);
    TextAt(m, 1, "BackupType", r.kind);
    TextAt(m, 2, "BasedOnFullBackup", r.basedOn);
    TextAt(m, 3, "PreviousBackupFileName", r.previous);
    TextAt(m, 4, "CreatedAtUtc", r.created);
  }

  lemma FourLists(m: seq<Member>)
    requires |m| == 9 && m[0].key == "ArchiveFileName" && m[1].key == "BackupType" && m[2].key == "BasedOnFullBackup"
    requires m[3].key == "PreviousBackupFileName" && m[4].key == "CreatedAtUtc" && m[5].key == "AddedFiles"
    requires m[6].key == "ModifiedFiles" && m[7].key == "DeletedFiles" && m[8].key == "FullFileList"
    ensures ListsReadable(m) <==> IsPathList(m[5].value) && IsPathList(m[6].value) && IsPathList(m[7].value) && IsPathList(m[8].value)
  {}

  lemma DocumentSays(r: RecordDoc)
    requires Writable(r)
    ensures ListsReadable(Document(r).members) <==> NoRepeats(r)
    ensures NoRepeats(r) ==> Said(Document(r).members) == Canonical(r)
  {
    var m := Document(r).members;
    DocumentKeys(r);
    FourLists(m);
    ListsWritten(r, m);
    TextsSaid(r, m);
  }

  /** Exactly what reading a written record gives: its canonical form, or nothing when an entry repeats, a
      reference is unsafe or the record answers to another name. */
  lemma WrittenRecordReads(r: RecordDoc, asked: string)
    requires Writable(r)
    ensures Parse(Events(Document(r)), asked)
         == if NoRepeats(r) && SafeReferences(r) && Answers(r, asked) then Some(Canonical(r)) else None
  {
    DocumentReads(Document(r).members, asked);
    DocumentSays(r);
    if NoRepeats(r) { AcceptableIs(Canonical(r), asked); }
  }

  ghost predicate CanonicalList(values: seq<string>) { AllSafe(values) && Increasing(values) }

  lemma CanonicalListStays(values: seq<string>)
    requires CanonicalList(values)
    ensures AllNormalize(values) && AllDifferent(Normalized(values)) && Sorted(values) == values
  {
    forall i | 0 <= i < |values| ensures NormalizeRelativeEntry(values[i]) == Some(values[i]) { SafeNormalizes(values[i]); }
    assert Normalized(values) == values;
    IncreasingDistinct(values);
    ListingUnique(Listing(Elems(values)), values);
  }

  lemma StayingListCanonical(values: seq<string>)
    requires AllNormalize(values) && Sorted(values) == values
    ensures CanonicalList(values)
  {
    NormalizedSafe(values);
    forall i | 0 <= i < |values| ensures SafeRelative(values[i]) {
      assert values[i] in Elems(Sorted(values));
      assert values[i] in Normalized(values);
    }
  }

  ghost predicate CanonicalLists(r: RecordDoc)
  {
    CanonicalList(r.added) && CanonicalList(r.modified) && CanonicalList(r.deleted) && CanonicalList(r.full)
  }

  /** A record survives the round trip unchanged exactly when its lists are sorted safe paths without repeats,
      its references are safe and it answers to the name it is looked up by. */
  lemma RecordRoundTrip(r: RecordDoc, asked: string)
    requires Writable(r)
    ensures Parse(Events(Document(r)), asked) == Some(r) <==> CanonicalLists(r) && SafeReferences(r) && Answers(r, asked)
  {
    WrittenRecordReads(r, asked);
    if CanonicalLists(r) {
      CanonicalListStays(r.added);
      CanonicalListStays(r.modified);
      CanonicalListStays(r.deleted);
      CanonicalListStays(r.full);
    }
    if Canonical(r) == r {
      StayingListCanonical(r.added);
      StayingListCanonical(r.modified);
      StayingListCanonical(r.deleted);
      StayingListCanonical(r.full);
    }
  }

  lemma ReadListCanonical(members: seq<Member>, key: string)
    ensures CanonicalList(FilesUnder(members, key))
  {
    var v, list := Find(members, key), FilesUnder(members, key);
    if v.Some? && IsPathList(v.value) {
      forall i | 0 <= i < |list| ensures SafeRelative(list[i]) {
        assert list[i] in Elems(list);
        var k :| 0 <= k < |v.value.items| && Entries(v.value.items)[k] == list[i];
        NormalizeIsStable(v.value.items[k].s);
      }
    }
  }

  /** Whatever document is read, an accepted record has sorted lists of safe paths without repeats. */
  lemma AcceptedRecordIsCanonical(v: Json, asked: string)
    requires Parse(Events(v), asked).Some?
    ensures var r := Parse(Events(v), asked).value; CanonicalLists(r) && SafeReferences(r) && Answers(r, asked)
  {
    if !v.JObject? { OnlyObjectsParse(v, asked); }
    DocumentReads(v.members, asked);
    AcceptableIs(Said(v.members), asked);
    ReadListCanonical(v.members, "AddedFiles");
    ReadListCanonical(v.members, "ModifiedFiles");
    ReadListCanonical(v.members, "DeletedFiles");
    ReadListCanonical(v.members, "FullFileList");
  }

  /** Whatever was loaded, saving it and loading it again gives the same record. */
  lemma LoadedRecordResaves(v: Json, asked: string)
    requires Parse(Events(v), asked).Some?
    ensures Writable(Parse(Events(v), asked).value)
    ensures Parse(Events(Document(Parse(Events(v), asked).value)), asked) == Parse(Events(v), asked)
  {
    AcceptedRecordIsCanonical(v, asked);
    var r := Parse(Events(v), asked).value;
    CanonicalListStays(r.added);
    CanonicalListStays(r.modified);
    CanonicalListStays(r.deleted);
    CanonicalListStays(r.full);
    RecordRoundTrip(r, asked);
  }

  // ---- unknown members ----

  predicate Known(key: string)
  {
    || key in {"ArchiveFileName", "BackupType", "BasedOnFullBackup", "PreviousBackupFileName", "CreatedAtUtc"}
    || ListKindOf(key).Some?
  }

  predicate Ignores(r: Reader)
  {
    r.frames != [] && (r.Top().kind == IgnoredObject || r.Top().kind == IgnoredArray
                       || (r.Top().kind == Root && !Known(r.Top().key)))
  }

  /** A value of any shape and depth passes through an ignoring reader without a trace. */
  lemma {:induction false} IgnoresValue(r: Reader, v: Json)
    requires Ignores(r)
    ensures Run(r, Events(v)) == Some(r)
    decreases v, 1
  {
    match v
    case JArray(items) => IgnoresArray(r, v);
    case JObject(members) => IgnoresObject(r, v);
    case _ =>
      var e := Events(v)[0];
      assert Events(v) == [e] + [];
      RunStep(r, e, []);
  }

  /** A container is read here as something to ignore. */
  predicate Opens(r: Reader) { r.frames != [] && !r.Top().kind.KnownArray? && !ExpectsList(r.Top()) }

  lemma {:induction false} IgnoresArray(r: Reader, v: Json)
    requires Opens(r) && v.JArray?
    ensures Run(r, Events(v)) == Some(r)
    decreases v, 0
  {
    var inner := r.Push(Frame(IgnoredArray, ""));
    var body := ItemEvents(v.items);
    assert [StartArray] + body + [EndArray] == [StartArray] + (body + [EndArray]) && [EndArray] + [] == [EndArray];
    RunStep(r, StartArray, body + [EndArray]);
    IgnoresItems(inner, v.items);
    RunAppend(inner, body, [EndArray]);
    RunStep(inner, EndArray, []);
  }

  lemma {:induction false} IgnoresObject(r: Reader, v: Json)
    requires Opens(r) && v.JObject?
    ensures Run(r, Events(v)) == Some(r)
    decreases v, 0
  {
    var inner := r.Push(Frame(IgnoredObject, ""));
    var body := MemberEvents(v.members);
    assert [StartObject] + body + [EndObject] == [StartObject] + (body + [EndObject]) && [EndObject] + [] == [EndObject];
    RunStep(r, StartObject, body + [EndObject]);
    IgnoresMembers(r, "", v.members);
    var key := LastKey(v.members, "");
    RunAppend(inner, body, [EndObject]);
    RunStep(r.Push(Frame(IgnoredObject, key)), EndObject, []);
  }

  lemma {:induction false} IgnoresItems(r: Reader, items: seq<Json>)
    requires Ignores(r)
    ensures Run(r, ItemEvents(items)) == Some(r)
    decreases items, 0
  {
    if items != [] {
      IgnoresValue(r, items[0]);
      IgnoresItems(r, items[1..]);
      RunAppend(r, Events(items[0]), ItemEvents(items[1..]));
    }
  }

  lemma {:induction false} IgnoresMembers(r: Reader, key: string, members: seq<Member>)
    ensures Run(r.Push(Frame(IgnoredObject, key)), MemberEvents(members))
         == Some(r.Push(Frame(IgnoredObject, LastKey(members, key))))
    decreases members, 0
  {
    if members != [] {
      var next := r.Push(Frame(IgnoredObject, members[0].key));
      var value, rest := Events(members[0].value), MemberEvents(members[1..]);
      assert MemberEvents(members) == [Key(members[0].key)] + (value + rest);
      RunStep(r.Push(Frame(IgnoredObject, key)), Key(members[0].key), value + rest);
      IgnoresValue(next, members[0].value);
      RunAppend(next, value, rest);
      IgnoresMembers(r, members[0].key, members[1..]);
    }
  }

  lemma UnknownMemberRuns(r: Reader, key: string, v: Json)
    requires r.frames != [] && r.Top().kind == Root && !Known(key)
    ensures Run(r, [Key(key)] + Events(v)) == Some(r.Pop().Push(r.Top().(key := key)))
  {
    RunStep(r, Key(key), Events(v));
    IgnoresValue(r.Pop().Push(r.Top().(key := key)), v);
  }

  lemma PendingKeyIsLost(r: Reader, key: string, e: Event)
    requires r.frames != [] && r.Top().kind == Root && (e.Key? || e.EndObject?)
    ensures Step(r.Pop().Push(r.Top().(key := key)), e) == Step(r, e)
  {
  }

  /** Between two members at the root, any member with an unknown key changes nothing. */
  lemma UnknownMemberIsIgnored(before: seq<Event>, key: string, v: Json, after: seq<Event>, asked: string)
    requires !Known(key)
    requires Run(NEW_READER, before).Some? ==>
               var r := Run(NEW_READER, before).value; |r.frames| == 1 && r.Top().kind == Root
    requires after != [] && (after[0].Key? || after[0].EndObject?)
    ensures Parse(before + ([Key(key)] + Events(v)) + after, asked) == Parse(before + after, asked)
  {
    RunAppend(NEW_READER, before, after);
    RunAppend(NEW_READER, before, [Key(key)] + Events(v));
    RunAppend(NEW_READER, before + ([Key(key)] + Events(v)), after);
    if Run(NEW_READER, before).Some? {
      var r := Run(NEW_READER, before).value;
      UnknownMemberRuns(r, key, v);
      PendingKeyIsLost(r, key, after[0]);
    }
  }
}
