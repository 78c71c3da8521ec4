/** The events of a JSON document, and the two documents of the metadata store as text-free values. */
module JsonEvents {
  import opened Names
  import opened Format
  import opened Chain

  type Int64 = i: int | -0x8000_0000_0000_0000 <= i < 0x8000_0000_0000_0000

  datatype Event =
    | Null
    | Boolean(b: bool)
    | NumberInteger(i: Int64)
    | NumberUnsigned(n: FileSize)
    | NumberFloat
    | String(s: string)
    | StartObject
    | Key(k: string)
    | EndObject
    | StartArray
    | EndArray

  datatype Json =
    | JNull
    | JBoolean(b: bool)
    | JInteger(i: Int64)
    | JUnsigned(n: FileSize)
    | JFloat
    | JString(s: string)
    | JArray(items: seq<Json>)
    | JObject(members: seq<Member>)

  datatype Member = Member(key: string, value: Json)

  function Events(v: Json): seq<Event>
    decreases v
  {
    match v
    case JNull => [Null]
    case JBoolean(b) => [Boolean(b)]
    case JInteger(i) => [NumberInteger(i)]
    case JUnsigned(n) => [NumberUnsigned(n)]
    case JFloat => [NumberFloat]
    case JString(s) => [String(s)]
    case JArray(items) => [StartArray] + ItemEvents(items) + [EndArray]
    case JObject(members) => [StartObject] + MemberEvents(members) + [EndObject]
  }

  function ItemEvents(items: seq<Json>): seq<Event>
    decreases items
  {
    if items == [] then [] else Events(items[0]) + ItemEvents(items[1..])
  }

  function MemberEvents(members: seq<Member>): seq<Event>
    decreases members
  {
    if members == [] then [] else [Key(members[0].key)] + Events(members[0].value) + MemberEvents(members[1..])
  }

  /** The key left pending after reading the members of an object. */
  function LastKey(members: seq<Member>, key: string): string
  {
    if members == [] then key else LastKey(members[1..], members[0].key)
  }

  lemma ArrayEvents(v: Json)
    requires v.JArray?
    ensures Events(v) == [StartArray] + (ItemEvents(v.items) + [EndArray])
  {}

  lemma ObjectEvents(v: Json)
    requires v.JObject?
    ensures Events(v) == [StartObject] + (MemberEvents(v.members) + [EndObject])
  {}

  lemma {:induction false} MemberEventsAppend(a: seq<Member>, b: seq<Member>)
    ensures MemberEvents(a + b) == MemberEvents(a) + MemberEvents(b)
    decreases |a|
  {
    if a == [] {
      assert a + b == b;
    } else {
      assert (a + b)[1..] == a[1..] + b;
      MemberEventsAppend(a[1..], b);
    }
  }

  lemma LastMember(front: seq<Member>, m: Member)
    ensures MemberEvents(front + [m]) == MemberEvents(front) + ([Key(m.key)] + Events(m.value))
  {
    MemberEventsAppend(front, [m]);
    assert MemberEvents([m]) == [Key(m.key)] + Events(m.value) + MemberEvents([]);
  }

  // What an object says under a key: the last member of that key counts.

  function Find(members: seq<Member>, key: string): Option<Json>
    decreases |members|
  {
    if members == [] then None
    else
      var m := members[|members| - 1];
      if m.key == key then Some(m.value) else Find(members[..|members| - 1], key)
  }

  function TextUnder(members: seq<Member>, key: string): string
  {
    var v := Find(members, key);
    if v.Some? && v.value.JString? then v.value.s else ""
  }

  lemma {:induction false} FoundAt(members: seq<Member>, key: string, i: nat)
    requires i < |members| && members[i].key == key
    requires forall j | i < j < |members| :: members[j].key != key
    ensures Find(members, key) == Some(members[i].value)
    decreases |members|
  {
    if i < |members| - 1 { FoundAt(members[..|members| - 1], key, i); }
  }

  lemma {:induction false} LastKeyOf(front: seq<Member>, m: Member, key: string)
    ensures LastKey(front + [m], key) == m.key
    decreases |front|
  {
    if front == [] {
      assert front + [m] == [m];
      assert [m][1..] == [];
    } else {
      assert (front + [m])[1..] == front[1..] + [m];
      LastKeyOf(front[1..], m, front[0].key);
    }
  }

  lemma TextWritten(front: seq<Member>, key: string, text: string)
    ensures MemberEvents(front + [Member(key, JString(text))]) == MemberEvents(front) + [Key(key), String(text)]
  {
    LastMember(front, Member(key, JString(text)));
    assert [Key(key)] + Events(JString(text)) == [Key(key), String(text)];
  }

  lemma TextAt(members: seq<Member>, i: nat, key: string, text: string)
    requires i < |members| && members[i] == Member(key, JString(text))
    requires forall j | i < j < |members| :: members[j].key != key
    ensures TextUnder(members, key) == text
  {
    FoundAt(members, key, i);
  }

  // Stacks grow at the back.

  function Peek<T>(s: seq<T>): T
    requires s != []
  {
    s[|s| - 1]
  }

  function Popped<T>(s: seq<T>): seq<T>
    requires s != []
  {
    s[..|s| - 1]
  }

  function Pushed<T>(s: seq<T>, x: T): (r: seq<T>)
    ensures r != [] && Peek(r) == x && Popped(r) == s
  {
    s + [x]
  }

  predicate IsSafeArchiveReference(value: string, allowEmpty: bool)
  {
    if value == "" then allowEmpty else IsSafeSinglePathSegment(value)
  }
}

/** Writing and reading `state.json`. */
module StateJson {
  import opened Names
  import opened Ordering
  import opened Format
  import opened Chain
  import opened JsonEvents

  datatype StateDoc = StateDoc(
    version: string,
    lastTime: string,
    last: string,
    basedOn: string,
    files: map<Path, FileState>)

  // ---- the writer ----

  predicate AllNormalize(files: map<Path, FileState>, paths: seq<Path>)
  {
    forall i | 0 <= i < |paths| :: paths[i] in files && NormalizeRelativeEntry(paths[i]).Some?
  }

  predicate Writable(s: StateDoc)
  {
    forall p | p in s.files :: NormalizeRelativeEntry(p).Some?
  }

  function FileValue(f: FileState): Json
  {
    JObject([Member("Size", JUnsigned(f.size)), Member("LastWriteTimeUtc", JString(f.lastWrite)), Member("Hash", JString(f.hash))])
  }

  function FileMembers(files: map<Path, FileState>, paths: seq<Path>): seq<Member>
    requires AllNormalize(files, paths)
  {
    seq(|paths|, i requires 0 <= i < |paths| => Member(NormalizeRelativeEntry(paths[i]).value, FileValue(files[paths[i]])))
  }

  function HeadMembers(s: StateDoc): seq<Member>
  {
    [Member("Version", JString("3.0")), Member("LastBackupTime", JString(s.lastTime)),
     Member("LastBackupFileName", JString(s.last)), Member("BasedOnFullBackup", JString(s.basedOn))]
  }

  /** The document of a state: the files in path order, every path normalised. */
  function Document(s: StateDoc): Json
    requires Writable(s)
  {
    AllWritable(s.files);
    JObject(HeadMembers(s) + [Member("FileStates", JObject(FileMembers(s.files, Listing(s.files.Keys))))])
  }

  lemma FileWritten(f: FileState)
    ensures Events(FileValue(f))
         == [StartObject, Key("Size"), NumberUnsigned(f.size), Key("LastWriteTimeUtc"), String(f.lastWrite),
             Key("Hash"), String(f.hash), EndObject]
  {
    var m := FileValue(f).members;
    LastMember([], m[0]);
    assert [Key("Size")] + Events(JUnsigned(f.size)) == [Key("Size"), NumberUnsigned(f.size)];
    TextWritten(m[..1], "LastWriteTimeUtc", f.lastWrite);
    TextWritten(m[..2], "Hash", f.hash);
    assert [] + [m[0]] == m[..1] && m[..1] + [m[1]] == m[..2] && m[..2] + [m[2]] == m;
  }

  function FileEvents(path: string, f: FileState): seq<Event>
  {
    [Key(path), StartObject, Key("Size"), NumberUnsigned(f.size), Key("LastWriteTimeUtc"), String(f.lastWrite),
     Key("Hash"), String(f.hash), EndObject]
  }

  lemma NextFile(files: map<Path, FileState>, paths: seq<Path>, i: nat)
    requires i < |paths| && AllNormalize(files, paths[..i])
    requires paths[i] in files && NormalizeRelativeEntry(paths[i]).Some?
    ensures AllNormalize(files, paths[..i + 1])
    ensures MemberEvents(FileMembers(files, paths[..i + 1]))
         == MemberEvents(FileMembers(files, paths[..i])) + FileEvents(NormalizeRelativeEntry(paths[i]).value, files[paths[i]])
  {
    assert paths[..i + 1] == paths[..i] + [paths[i]];
    var m := Member(NormalizeRelativeEntry(paths[i]).value, FileValue(files[paths[i]]));
    assert FileMembers(files, paths[..i + 1]) == FileMembers(files, paths[..i]) + [m];
    LastMember(FileMembers(files, paths[..i]), m);
    FileWritten(files[paths[i]]);
  }

  lemma AllWritable(files: map<Path, FileState>)
    ensures AllNormalize(files, Listing(files.Keys)) <==> forall p | p in files :: NormalizeRelativeEntry(p).Some?
  {
    var paths := Listing(files.Keys);
    forall p | p in files ensures p in paths { assert p in Elems(paths); }
    forall i | 0 <= i < |paths| ensures paths[i] in files { ListingMember(files.Keys, i); }
  }

  method WriteFiles(files: map<Path, FileState>) returns (ok: bool, events: seq<Event>)
    ensures ok <==> AllNormalize(files, Listing(files.Keys))
    ensures ok ==> events == MemberEvents(FileMembers(files, Listing(files.Keys)))
  {
    var paths := Listing(files.Keys);
    events := [];
    for i := 0 to |paths|
      invariant AllNormalize(files, paths[..i])
      invariant events == MemberEvents(FileMembers(files, paths[..i]))
    {
      ListingMember(files.Keys, i);
      var relative := NormalizeRelativeEntry(paths[i]);
      if relative.None? { return false, events; }
      NextFile(files, paths, i);
      events := events + FileEvents(relative.value, files[paths[i]]);
    }
    assert paths[..|paths|] == paths;
    ok := true;
  }

  method WriteState(s: StateDoc) returns (ok: bool, events: seq<Event>)
    ensures ok <==> Writable(s)
    ensures ok ==> events == Events(Document(s))
  {
    var files;
    ok, files := WriteFiles(s.files);
    AllWritable(s.files);
    events := [StartObject, Key("Version"), String("3.0"), Key("LastBackupTime"), String(s.lastTime),
               Key("LastBackupFileName"), String(s.last), Key("BasedOnFullBackup"), String(s.basedOn),
               Key("FileStates"), StartObject];
    if ok { DocumentWritten(s, events, files); }
    events := events + files + [EndObject, EndObject];
  }

  lemma HeadWritten(s: StateDoc)
    ensures MemberEvents(HeadMembers(s))
         == [Key("Version"), String("3.0"), Key("LastBackupTime"), String(s.lastTime),
             Key("LastBackupFileName"), String(s.last), Key("BasedOnFullBackup"), String(s.basedOn)]
  {
    var m := HeadMembers(s);
    TextWritten([], "Version", "3.0");
    TextWritten(m[..1], "LastBackupTime", s.lastTime);
    TextWritten(m[..2], "LastBackupFileName", s.last);
    TextWritten(m[..3], "BasedOnFullBackup", s.basedOn);
    assert [] + [m[0]] == m[..1] && m[..1] + [m[1]] == m[..2] && m[..2] + [m[2]] == m[..3] && m[..3] + [m[3]] == m;
  }

  lemma DocumentWritten(s: StateDoc, text: seq<Event>, files: seq<Event>)
    requires Writable(s) && AllNormalize(s.files, Listing(s.files.Keys))
    requires text == [StartObject, Key("Version"), String("3.0"), Key("LastBackupTime"), String(s.lastTime),
                      Key("LastBackupFileName"), String(s.last), Key("BasedOnFullBackup"), String(s.basedOn),
                      Key("FileStates"), StartObject]
    requires files == MemberEvents(FileMembers(s.files, Listing(s.files.Keys)))
    ensures text + files + [EndObject, EndObject] == Events(Document(s))
  {
    var value := JObject(FileMembers(s.files, Listing(s.files.Keys)));
    HeadWritten(s);
    LastMember(HeadMembers(s), Member("FileStates", value));
    Grouped(text, MemberEvents(HeadMembers(s)), files, Events(value));
  }

  lemma Grouped(text: seq<Event>, texts: seq<Event>, files: seq<Event>, value: seq<Event>)
    requires text == [StartObject] + texts + [Key("FileStates"), StartObject]
    requires value == [StartObject] + files + [EndObject]
    ensures text + files + [EndObject, EndObject] == [StartObject] + (texts + ([Key("FileStates")] + value)) + [EndObject]
  {}

  // ---- the reader ----

  datatype FrameKind = Root | FileStates | FileEntry | IgnoredObject | IgnoredArray

  datatype Frame = Frame(kind: FrameKind, key: string, relativePath: Path, file: FileState, sizeSeen: bool)

  const NO_FILE := FileState(0, "", "")

  function NewFrame(kind: FrameKind): Frame { Frame(kind, "", "", NO_FILE, false) }

  datatype Reader = Reader(frames: seq<Frame>, doc: StateDoc, rootStarted: bool, rootEnded: bool, sawFileStates: bool)
  {
    function Top(): Frame
      requires frames != []
    {
      Peek(frames)
    }

    function Pop(): Reader
      requires frames != []
    {
      this.(frames := Popped(frames))
    }

    function Push(f: Frame): Reader { this.(frames := Pushed(frames, f)) }

    function WithTop(f: Frame): Reader
      requires frames != []
    {
      Pop().Push(f)
    }
  }

  const EMPTY_DOC := StateDoc("3.0", "", "", "", map[])
  const NEW_READER := Reader([], EMPTY_DOC, false, false, false)

  function SetText(doc: StateDoc, key: string, value: string): StateDoc
  {
    if key == "Version" then doc.(version := value)
    else if key == "LastBackupTime" then doc.(lastTime := value)
    else if key == "LastBackupFileName" then doc.(last := value)
    else if key == "BasedOnFullBackup" then doc.(basedOn := value)
    else doc
  }

  function SetFileText(f: FileState, key: string, value: string): FileState
  {
    if key == "LastWriteTimeUtc" then f.(lastWrite := value)
    else if key == "Hash" then f.(hash := value)
    else f
  }

  predicate Primitive(r: Reader)
  {
    r.frames != [] && r.Top().kind != FileStates && !(r.Top().kind == Root && r.Top().key == "FileStates")
  }

  function TakeSize(r: Reader, size: int): Option<Reader>
    requires size < 0x1_0000_0000_0000_0000
  {
    if r.frames == [] || r.Top().kind == FileStates then None
    else if r.Top().kind == FileEntry && r.Top().key == "Size" then
      if size < 0 then None
      else Some(r.WithTop(r.Top().(file := r.Top().file.(size := size), sizeSeen := true)))
    else Some(r)
  }

  /** One callback of the reader; None stops the parse. */
  function Step(r: Reader, e: Event): Option<Reader>
  {
    match e
    case Null => if Primitive(r) then Some(r) else None
    case Boolean(_) => if Primitive(r) then Some(r) else None
    case NumberFloat => if Primitive(r) then Some(r) else None
    case NumberInteger(i) => TakeSize(r, i)
    case NumberUnsigned(n) => TakeSize(r, n)
    case String(s) =>
      if r.frames == [] || r.Top().kind == FileStates then None
      else if r.Top().kind == Root then Some(r.(doc := SetText(r.doc, r.Top().key, s)))
      else if r.Top().kind == FileEntry then
        Some(r.WithTop(r.Top().(file := SetFileText(r.Top().file, r.Top().key, s))))
      else Some(r)
    case StartObject =>
      if r.frames == [] then
        if r.rootStarted then None else Some(r.Push(NewFrame(Root)).(rootStarted := true))
      else if r.Top().kind == Root && r.Top().key == "FileStates" then
        Some(r.WithTop(r.Top().(key := "")).Push(NewFrame(FileStates)).(doc := r.doc.(files := map[]), sawFileStates := true))
      else if r.Top().kind == FileStates then
        var path := NormalizeRelativeEntry(r.Top().key);
        if path.None? then None
        else Some(r.WithTop(r.Top().(key := "")).Push(NewFrame(FileEntry).(relativePath := path.value)))
      else Some(r.Push(NewFrame(IgnoredObject)))
    case Key(k) =>
      if r.frames == [] then None
      else
        var top := r.Top().(key := k);
        if top.kind == Root then Some(r.WithTop(top).(doc := SetText(r.doc, k, "")))
        else if top.kind == FileEntry then
          Some(r.WithTop(top.(file := SetFileText(top.file, k, ""), sizeSeen := top.sizeSeen && k != "Size")))
        else Some(r.WithTop(top))
    case EndObject =>
      if r.frames == [] then None
      else
        var top, rest := r.Top(), r.Pop();
        if top.kind == FileEntry then
          if !top.sizeSeen || top.file.lastWrite == "" then None
          else Some(rest.(doc := rest.doc.(files := rest.doc.files[top.relativePath := top.file])))
        else if top.kind == Root then
          if rest.frames != [] then None else Some(rest.(rootEnded := true))
        else Some(rest)
    case StartArray =>
      if r.frames == [] || r.Top().kind == FileStates || (r.Top().kind == Root && r.Top().key == "FileStates") then None
      else Some(r.Push(NewFrame(IgnoredArray)))
    case EndArray =>
      if r.frames == [] || r.Top().kind != IgnoredArray then None else Some(r.Pop())
  }

  function Run(r: Reader, events: seq<Event>): Option<Reader>
    decreases events
  {
    if events == [] then Some(r)
    else
      var next := Step(r, events[0]);
      if next.None? then None else Run(next.value, events[1..])
  }

  function Complete(r: Reader): Option<StateDoc>
  {
    if !r.rootEnded || !r.sawFileStates || r.frames != [] then None
    else
      var doc := if r.doc.version == "" then r.doc.(version := "3.0") else r.doc;
      if IsSafeArchiveReference(doc.last, true) && IsSafeArchiveReference(doc.basedOn, true) then Some(doc) else None
  }

  function Parse(events: seq<Event>): Option<StateDoc>
  {
    var r := Run(NEW_READER, events);
    if r.None? then None else Complete(r.value)
  }

  /** The reader as the parser drives it: callbacks push and pop frames and assign fields. */
  class StateSaxHandler {
    var frames: seq<Frame>
    var doc: StateDoc
    var rootStarted: bool
    var rootEnded: bool
    var sawFileStates: bool

    function Model(): Reader
      reads this
    {
      Reader(frames, doc, rootStarted, rootEnded, sawFileStates)
    }

    constructor ()
      ensures Model() == NEW_READER
    {
      frames, doc, rootStarted, rootEnded, sawFileStates := [], EMPTY_DOC, false, false, false;
    }

    method SetTop(f: Frame)
      requires frames != []
      modifies this`frames
      ensures frames == Pushed(Popped(old(frames)), f)
    {
      frames := Pushed(Popped(frames), f);
    }

    method OnNumber(size: int) returns (ok: bool)
      requires size < 0x1_0000_0000_0000_0000
      modifies this`frames
      ensures ok <==> TakeSize(old(Model()), size).Some?
      ensures ok ==> Model() == TakeSize(old(Model()), size).value
    {
      if frames == [] { return false; }
      var frame := Peek(frames);
      if frame.kind == FileStates { return false; }
      if frame.kind == FileEntry && frame.key == "Size" {
        if size < 0 { return false; }
        SetTop(frame.(file := frame.file.(size := size), sizeSeen := true));
      }
      ok := true;
    }

    method OnString(value: string) returns (ok: bool)
      modifies this`frames, this`doc
      ensures ok <==> Step(old(Model()), String(value)).Some?
      ensures ok ==> Model() == Step(old(Model()), String(value)).value
    {
      if frames == [] { return false; }
      var frame := Peek(frames);
      if frame.kind == FileStates { return false; }
      if frame.kind == Root {
        doc := SetText(doc, frame.key, value);
      } else if frame.kind == FileEntry {
        SetTop(frame.(file := SetFileText(frame.file, frame.key, value)));
      }
      ok := true;
    }

    method OpenFileStates()
      requires frames != [] && Peek(frames).kind == Root && Peek(frames).key == "FileStates"
      modifies this
      ensures Step(old(Model()), StartObject) == Some(Model())
    {
      doc := doc.(files := map[]);
      sawFileStates := true;
      SetTop(Peek(frames).(key := ""));
      frames := Pushed(frames, NewFrame(FileStates));
    }

    method OpenFileEntry() returns (ok: bool)
      requires frames != [] && Peek(frames).kind == FileStates
      modifies this`frames
      ensures ok <==> Step(old(Model()), StartObject).Some?
      ensures ok ==> Step(old(Model()), StartObject) == Some(Model())
    {
      var path := NormalizeRelativeEntry(Peek(frames).key);
      if path.None? { return false; }
      SetTop(Peek(frames).(key := ""));
      frames := Pushed(frames, NewFrame(FileEntry).(relativePath := path.value));
      ok := true;
    }

    method OnStartObject() returns (ok: bool)
      modifies this
      ensures ok <==> Step(old(Model()), StartObject).Some?
      ensures ok ==> Model() == Step(old(Model()), StartObject).value
    {
      if frames == [] {
        if rootStarted { return false; }
        rootStarted := true;
        frames := Pushed(frames, NewFrame(Root));
        return true;
      }
      var parent := Peek(frames);
      if parent.kind == Root && parent.key == "FileStates" {
        OpenFileStates();
        return true;
      }
      if parent.kind == FileStates {
        ok := OpenFileEntry();
        return;
      }
      frames := Pushed(frames, NewFrame(IgnoredObject));
      ok := true;
    }

    method OnKey(value: string) returns (ok: bool)
      modifies this`frames, this`doc
      ensures ok <==> Step(old(Model()), Key(value)).Some?
      ensures ok ==> Model() == Step(old(Model()), Key(value)).value
    {
      if frames == [] { return false; }
      var frame := Peek(frames).(key := value);
      if frame.kind == Root {
        doc := SetText(doc, value, "");
      } else if frame.kind == FileEntry {
        frame := frame.(file := SetFileText(frame.file, value, ""));
        if value == "Size" { frame := frame.(sizeSeen := false); }
      }
      SetTop(frame);
      ok := true;
    }

    method OnEndObject() returns (ok: bool)
      modifies this
      ensures ok <==> Step(old(Model()), EndObject).Some?
      ensures ok ==> Model() == Step(old(Model()), EndObject).value
    {
      if frames == [] { return false; }
      var frame := Peek(frames);
      frames := Popped(frames);
      if frame.kind == FileEntry {
        if !frame.sizeSeen || frame.file.lastWrite == "" { return false; }
        doc := doc.(files := doc.files[frame.relativePath := frame.file]);
      } else if frame.kind == Root {
        if frames != [] { return false; }
        rootEnded := true;
      }
      ok := true;
    }

    method OnEvent(e: Event) returns (ok: bool)
      modifies this
      ensures ok <==> Step(old(Model()), e).Some?
      ensures ok ==> Model() == Step(old(Model()), e).value
    {
      match e
      case Null => ok := Primitive(Model());
      case Boolean(_) => ok := Primitive(Model());
      case NumberFloat => ok := Primitive(Model());
      case NumberInteger(i) => ok := OnNumber(i);
      case NumberUnsigned(n) => ok := OnNumber(n);
      case String(s) => ok := OnString(s);
      case StartObject => ok := OnStartObject();
      case Key(k) => ok := OnKey(k);
      case EndObject => ok := OnEndObject();
      case StartArray =>
        ok := Primitive(Model());
        if ok { frames := Pushed(frames, NewFrame(IgnoredArray)); }
      case EndArray =>
        ok := frames != [] && Peek(frames).kind == IgnoredArray;
        if ok { frames := Popped(frames); }
    }
  }

  method LoadState(events: seq<Event>) returns (result: Option<StateDoc>)
    ensures result == Parse(events)
  {
    var handler := new StateSaxHandler();
    for i := 0 to |events|
      invariant Run(NEW_READER, events) == Run(handler.Model(), events[i..])
    {
      var ok := handler.OnEvent(events[i]);
      assert events[i..][1..] == events[i + 1..];
      if !ok { return None; }
    }
    result := Complete(handler.Model());
  }

  // ---- what any accepted document satisfies ----

  ghost predicate ValidDoc(s: StateDoc)
  {
    && (forall p | p in s.files :: SafeRelative(p) && s.files[p].lastWrite != "")
    && IsSafeArchiveReference(s.last, true) && IsSafeArchiveReference(s.basedOn, true)
    && s.version != ""
  }

  ghost predicate FilesSane(files: map<Path, FileState>)
  {
    forall p | p in files :: SafeRelative(p) && files[p].lastWrite != ""
  }

  ghost predicate FramesSane(frames: seq<Frame>)
  {
    forall i | 0 <= i < |frames| && frames[i].kind == FileEntry :: SafeRelative(frames[i].relativePath)
  }

  ghost predicate Sane(r: Reader)
  {
    FilesSane(r.doc.files) && FramesSane(r.frames)
  }

  lemma PushSane(r: Reader, f: Frame)
    requires FramesSane(r.frames) && (f.kind == FileEntry ==> SafeRelative(f.relativePath))
    ensures FramesSane(r.Push(f).frames)
  {
  }

  lemma PopSane(r: Reader)
    requires FramesSane(r.frames) && r.frames != []
    ensures FramesSane(r.Pop().frames) && (r.Top().kind == FileEntry ==> SafeRelative(r.Top().relativePath))
  {
  }

  lemma NewTopSane(r: Reader, f: Frame)
    requires FramesSane(r.frames) && r.frames != []
    requires f.kind == FileEntry ==> SafeRelative(f.relativePath)
    ensures FramesSane(r.WithTop(f).frames)
  {
    PopSane(r);
    PushSane(r.Pop(), f);
  }

  lemma ObjectSane(r: Reader)
    requires FramesSane(r.frames) && r.frames != [] && Step(r, StartObject).Some?
    ensures FramesSane(Step(r, StartObject).value.frames)
  {
    var top := r.Top();
    PopSane(r);
    if top.kind == Root && top.key == "FileStates" {
      NewTopSane(r, top.(key := ""));
      PushSane(r.WithTop(top.(key := "")), NewFrame(FileStates));
    } else if top.kind == FileStates {
      EntrySane(r);
    } else {
      PushSane(r, NewFrame(IgnoredObject));
    }
  }

  lemma EntrySane(r: Reader)
    requires FramesSane(r.frames) && r.frames != [] && r.Top().kind == FileStates && Step(r, StartObject).Some?
    ensures FramesSane(Step(r, StartObject).value.frames)
  {
    var top := r.Top();
    NormalizeIsStable(top.key);
    var path := NormalizeRelativeEntry(top.key).value;
    NewTopSane(r, top.(key := ""));
    PushSane(r.WithTop(top.(key := "")), NewFrame(FileEntry).(relativePath := path));
  }

  lemma ValueSane(r: Reader, e: Event)
    requires FramesSane(r.frames) && Step(r, e).Some?
    requires e.NumberInteger? || e.NumberUnsigned? || e.String? || e.Key?
    ensures FramesSane(Step(r, e).value.frames)
  {
    PopSane(r);
    var top := Step(r, e).value.Top();
    if Step(r, e).value.frames != r.frames { NewTopSane(r, top); }
  }

  lemma StepFrames(r: Reader, e: Event)
    requires FramesSane(r.frames) && r.frames != [] && Step(r, e).Some?
    ensures FramesSane(Step(r, e).value.frames)
  {
    match e
    case StartObject => ObjectSane(r);
    case EndObject => PopSane(r);
    case StartArray => PushSane(r, NewFrame(IgnoredArray));
    case EndArray => PopSane(r);
    case NumberInteger(_) => ValueSane(r, e);
    case NumberUnsigned(_) => ValueSane(r, e);
    case String(_) => ValueSane(r, e);
    case Key(_) => ValueSane(r, e);
    case _ =>
  }

  lemma SetTextKeepsFiles(doc: StateDoc, key: string, value: string)
    ensures SetText(doc, key, value).files == doc.files
  {
  }

  lemma CloseFiles(r: Reader)
    requires Sane(r) && r.frames != [] && Step(r, EndObject).Some?
    ensures FilesSane(Step(r, EndObject).value.doc.files)
  {
    PopSane(r);
  }

  lemma StepFiles(r: Reader, e: Event)
    requires Sane(r) && Step(r, e).Some?
    ensures FilesSane(Step(r, e).value.doc.files)
  {
    match e
    case EndObject => CloseFiles(r);
    case Key(k) => SetTextKeepsFiles(r.doc, k, "");
    case String(s) => SetTextKeepsFiles(r.doc, r.Top().key, s);
    case _ =>
  }

  lemma StepSane(r: Reader, e: Event)
    requires Sane(r) && Step(r, e).Some?
    ensures Sane(Step(r, e).value)
  {
    StepFiles(r, e);
    if r.frames != [] { StepFrames(r, e); }
  }

  lemma {:induction false} RunSane(r: Reader, events: seq<Event>)
    requires Sane(r) && Run(r, events).Some?
    ensures Sane(Run(r, events).value)
    decreases events
  {
    if events != [] {
      StepSane(r, events[0]);
      RunSane(Step(r, events[0]).value, events[1..]);
    }
  }

  /** Whatever the input, an accepted state has safe paths, dated files and safe references. */
  lemma AcceptedIsValid(events: seq<Event>)
    requires Parse(events).Some?
    ensures ValidDoc(Parse(events).value)
  {
    RunSane(NEW_READER, events);
  }

  // ---- running the reader over parts of a document ----

  lemma {:induction false} RunAppend(r: Reader, a: seq<Event>, b: seq<Event>)
    ensures Run(r, a + b) == if Run(r, a).None? then None else Run(Run(r, a).value, b)
    decreases a
  {
    if a == [] {
      assert a + b == b;
    } else {
      assert (a + b)[1..] == a[1..] + b;
      var next := Step(r, a[0]);
      if next.Some? { RunAppend(next.value, a[1..], b); }
    }
  }

  lemma RunStep(r: Reader, e: Event, rest: seq<Event>)
    ensures Run(r, [e] + rest) == if Step(r, e).None? then None else Run(Step(r, e).value, rest)
  {
    assert ([e] + rest)[1..] == rest;
  }

  // ---- what a document says ----

  function SizeOf(v: Json): Option<FileSize>
  {
    if v.JUnsigned? then Some(v.n) else if v.JInteger? && v.i >= 0 then Some(v.i) else None
  }

  function SizeUnder(members: seq<Member>): Option<FileSize>
  {
    var v := Find(members, "Size");
    if v.Some? then SizeOf(v.value) else None
  }

  predicate NoNegativeSize(members: seq<Member>)
  {
    forall i | 0 <= i < |members| && members[i].key == "Size" && members[i].value.JInteger? :: members[i].value.i >= 0
  }

  /** An object with a size and a time, and no negative size. */
  predicate IsFile(v: Json)
  {
    v.JObject? && NoNegativeSize(v.members) && SizeUnder(v.members).Some? && TextUnder(v.members, "LastWriteTimeUtc") != ""
  }

  function FileSaid(v: Json): FileState
    requires IsFile(v)
  {
    FileState(SizeUnder(v.members).value, TextUnder(v.members, "LastWriteTimeUtc"), TextUnder(v.members, "Hash"))
  }

  predicate IsEntry(m: Member) { NormalizeRelativeEntry(m.key).Some? && IsFile(m.value) }

  predicate AllEntries(members: seq<Member>)
  {
    forall i | 0 <= i < |members| :: IsEntry(members[i])
  }

  /** The files of an object; of two entries with one path the last counts. */
  function FilesOf(members: seq<Member>): map<Path, FileState>
    requires AllEntries(members)
    decreases |members|
  {
    if members == [] then map[]
    else
      var m := members[|members| - 1];
      FilesOf(members[..|members| - 1])[NormalizeRelativeEntry(m.key).value := FileSaid(m.value)]
  }

  predicate IsFiles(v: Json) { v.JObject? && AllEntries(v.members) }

  /** Under FileStates stands an object of files; a text or a whole number is passed over. */
  predicate FilesReadable(members: seq<Member>)
  {
    forall i | 0 <= i < |members| && members[i].key == "FileStates" ::
      var v := members[i].value; v.JString? || v.JInteger? || v.JUnsigned? || IsFiles(v)
  }

  /** The last object of files under FileStates. */
  function FilesUnder(members: seq<Member>): Option<map<Path, FileState>>
    decreases |members|
  {
    if members == [] then None
    else
      var m := members[|members| - 1];
      if m.key == "FileStates" && IsFiles(m.value) then Some(FilesOf(m.value.members))
      else FilesUnder(members[..|members| - 1])
  }

  function Held(files: Option<map<Path, FileState>>): map<Path, FileState>
  {
    if files.Some? then files.value else map[]
  }

  /** The state an object describes: each text and the files under their keys; an absent or empty version is 3.0. */
  function Said(members: seq<Member>): StateDoc
  {
    var version := TextUnder(members, "Version");
    StateDoc(if version == "" then "3.0" else version, TextUnder(members, "LastBackupTime"),
             TextUnder(members, "LastBackupFileName"), TextUnder(members, "BasedOnFullBackup"), Held(FilesUnder(members)))
  }

  // ---- inside one file entry ----

  function AtFiles(doc: StateDoc): Reader
  {
    Reader([], doc, true, false, true).Push(NewFrame(Root)).Push(NewFrame(FileStates))
  }

  function InEntry(doc: StateDoc, p: Path, key: string, f: FileState, seen: bool): Reader
  {
    AtFiles(doc).Push(Frame(FileEntry, key, p, f, seen))
  }

  function Text(v: Json): string { if v.JString? then v.s else "" }

  /** What one more member changes in the entry being read. */
  function FileAfter(f: FileState, m: Member): FileState
  {
    FileState(if m.key == "Size" && SizeOf(m.value).Some? then SizeOf(m.value).value else f.size,
              if m.key == "LastWriteTimeUtc" then Text(m.value) else f.lastWrite,
              if m.key == "Hash" then Text(m.value) else f.hash)
  }

  lemma EntryKey(doc: StateDoc, p: Path, key: string, f: FileState, seen: bool, k: string, rest: seq<Event>)
    ensures Run(InEntry(doc, p, key, f, seen), [Key(k)] + rest)
         == Run(InEntry(doc, p, k, SetFileText(f, k, ""), seen && k != "Size"), rest)
  {
    RunStep(InEntry(doc, p, key, f, seen), Key(k), rest);
  }

  lemma EntryScalar(doc: StateDoc, p: Path, k: string, f: FileState, seen: bool, v: Json)
    requires !v.JArray? && !v.JObject?
    ensures Run(InEntry(doc, p, k, f, seen), Events(v))
         == if k == "Size" && v.JInteger? && v.i < 0 then None
            else if k == "Size" && SizeOf(v).Some? then Some(InEntry(doc, p, k, f.(size := SizeOf(v).value), true))
            else if v.JString? then Some(InEntry(doc, p, k, SetFileText(f, k, v.s), seen))
            else Some(InEntry(doc, p, k, f, seen))
  {
    var r, e := InEntry(doc, p, k, f, seen), Events(v)[0];
    assert Events(v) == [e] + [];
    RunStep(r, e, []);
  }

  lemma EntryValue(doc: StateDoc, p: Path, k: string, f: FileState, seen: bool, v: Json)
    ensures Run(InEntry(doc, p, k, f, seen), Events(v))
         == if k == "Size" && v.JInteger? && v.i < 0 then None
            else if k == "Size" && SizeOf(v).Some? then Some(InEntry(doc, p, k, f.(size := SizeOf(v).value), true))
            else if v.JString? then Some(InEntry(doc, p, k, SetFileText(f, k, v.s), seen))
            else Some(InEntry(doc, p, k, f, seen))
  {
    var r := InEntry(doc, p, k, f, seen);
    if v.JArray? {
      IgnoresArray(r, v);
    } else if v.JObject? {
      IgnoresObject(r, v);
    } else {
      EntryScalar(doc, p, k, f, seen, v);
    }
  }

  lemma EntryMember(doc: StateDoc, p: Path, key: string, f: FileState, seen: bool, m: Member)
    ensures Run(InEntry(doc, p, key, f, seen), [Key(m.key)] + Events(m.value))
         == if m.key == "Size" && m.value.JInteger? && m.value.i < 0 then None
            else Some(InEntry(doc, p, m.key, FileAfter(f, m), if m.key == "Size" then SizeOf(m.value).Some? else seen))
  {
    EntryKey(doc, p, key, f, seen, m.key, Events(m.value));
    EntryValue(doc, p, m.key, SetFileText(f, m.key, ""), seen && m.key != "Size", m.value);
  }

  /** The size an entry holds while it is read, whether or not its key came up again. */
  function HeldSize(members: seq<Member>): FileSize
    decreases |members|
  {
    if members == [] then 0
    else
      var m := members[|members| - 1];
      if m.key == "Size" && SizeOf(m.value).Some? then SizeOf(m.value).value else HeldSize(members[..|members| - 1])
  }

  function HeldFile(members: seq<Member>): FileState
  {
    FileState(HeldSize(members), TextUnder(members, "LastWriteTimeUtc"), TextUnder(members, "Hash"))
  }

  lemma HeldAfter(front: seq<Member>, m: Member)
    ensures HeldFile(front + [m]) == FileAfter(HeldFile(front), m)
    ensures SizeUnder(front + [m]).Some? <==> if m.key == "Size" then SizeOf(m.value).Some? else SizeUnder(front).Some?
    ensures NoNegativeSize(front + [m]) <==> NoNegativeSize(front) && !(m.key == "Size" && m.value.JInteger? && m.value.i < 0)
  {
    var members := front + [m];
    assert members[|members| - 1] == m && members[..|members| - 1] == front;
    assert forall i | 0 <= i < |front| :: members[i] == front[i];
  }

  lemma {:induction false} HeldIsUnder(members: seq<Member>)
    ensures SizeUnder(members).Some? ==> HeldSize(members) == SizeUnder(members).value
    decreases |members|
  {
    if members != [] { HeldIsUnder(members[..|members| - 1]); }
  }

  /** The reader after the members of an entry. */
  function AfterMembers(doc: StateDoc, p: Path, members: seq<Member>): Reader
  {
    InEntry(doc, p, LastKey(members, ""), HeldFile(members), SizeUnder(members).Some?)
  }

  lemma EntryMembersStep(doc: StateDoc, p: Path, front: seq<Member>, m: Member)
    requires NoNegativeSize(front)
    ensures Run(AfterMembers(doc, p, front), [Key(m.key)] + Events(m.value))
         == if NoNegativeSize(front + [m]) then Some(AfterMembers(doc, p, front + [m])) else None
  {
    EntryMember(doc, p, LastKey(front, ""), HeldFile(front), SizeUnder(front).Some?, m);
    HeldAfter(front, m);
    LastKeyOf(front, m, "");
  }

  lemma {:induction false} EntryMembers(doc: StateDoc, p: Path, members: seq<Member>)
    ensures Run(InEntry(doc, p, "", NO_FILE, false), MemberEvents(members))
         == if NoNegativeSize(members) then Some(AfterMembers(doc, p, members)) else None
    decreases |members|
  {
    if members == [] {
      assert AfterMembers(doc, p, []) == InEntry(doc, p, "", NO_FILE, false);
    } else {
      var front, m := members[..|members| - 1], members[|members| - 1];
      assert members == front + [m];
      LastMember(front, m);
      EntryMembers(doc, p, front);
      RunAppend(InEntry(doc, p, "", NO_FILE, false), MemberEvents(front), [Key(m.key)] + Events(m.value));
      HeldAfter(front, m);
      if NoNegativeSize(front) { EntryMembersStep(doc, p, front, m); }
    }
  }

  lemma EntryCloses(doc: StateDoc, p: Path, key: string, f: FileState, seen: bool)
    ensures Run(InEntry(doc, p, key, f, seen), [EndObject])
         == if seen && f.lastWrite != "" then Some(AtFiles(doc.(files := doc.files[p := f]))) else None
  {
    assert [EndObject] == [EndObject] + [];
    RunStep(InEntry(doc, p, key, f, seen), EndObject, []);
  }

  /** The members and the end of a file entry. */
  lemma EntryBody(doc: StateDoc, p: Path, v: Json)
    requires v.JObject?
    ensures Run(InEntry(doc, p, "", NO_FILE, false), MemberEvents(v.members) + [EndObject])
         == if IsFile(v) then Some(AtFiles(doc.(files := doc.files[p := FileSaid(v)]))) else None
  {
    EntryMembers(doc, p, v.members);
    RunAppend(InEntry(doc, p, "", NO_FILE, false), MemberEvents(v.members), [EndObject]);
    HeldIsUnder(v.members);
    if NoNegativeSize(v.members) {
      EntryCloses(doc, p, LastKey(v.members, ""), HeldFile(v.members), SizeUnder(v.members).Some?);
    }
  }

  // ---- inside the files ----

  function Keyed(doc: StateDoc, key: string): Reader
  {
    AtFiles(doc).WithTop(NewFrame(FileStates).(key := key))
  }

  lemma EntryOpens(doc: StateDoc, key: string, rest: seq<Event>)
    ensures Run(Keyed(doc, key), [StartObject] + rest)
         == if NormalizeRelativeEntry(key).None? then None
            else Run(InEntry(doc, NormalizeRelativeEntry(key).value, "", NO_FILE, false), rest)
  {
    RunStep(Keyed(doc, key), StartObject, rest);
  }

  lemma FilesKey(doc: StateDoc, key: string, rest: seq<Event>)
    ensures Run(AtFiles(doc), [Key(key)] + rest) == Run(Keyed(doc, key), rest)
  {
    RunStep(AtFiles(doc), Key(key), rest);
  }

  lemma FilesRefuse(r: Reader, e: Event)
    requires r.frames != [] && r.Top().kind == FileStates && !e.StartObject? && !e.Key? && !e.EndObject?
    ensures Step(r, e).None?
  {}

  lemma StartsPlain(v: Json)
    requires !v.JObject?
    ensures Events(v) != [] && var e := Events(v)[0]; !e.StartObject? && !e.Key? && !e.EndObject?
  {}

  lemma OnlyObjects(doc: StateDoc, key: string, v: Json)
    requires !v.JObject?
    ensures Run(Keyed(doc, key), Events(v)).None?
  {
    StartsPlain(v);
    FilesRefuse(Keyed(doc, key), Events(v)[0]);
  }

  lemma PathMember(doc: StateDoc, m: Member)
    ensures Run(AtFiles(doc), [Key(m.key)] + Events(m.value))
         == if IsEntry(m) then Some(AtFiles(doc.(files := doc.files[NormalizeRelativeEntry(m.key).value := FileSaid(m.value)])))
            else None
  {
    FilesKey(doc, m.key, Events(m.value));
    if m.value.JObject? {
      assert Events(m.value) == [StartObject] + (MemberEvents(m.value.members) + [EndObject]);
      EntryOpens(doc, m.key, MemberEvents(m.value.members) + [EndObject]);
      if NormalizeRelativeEntry(m.key).Some? { EntryBody(doc, NormalizeRelativeEntry(m.key).value, m.value); }
    } else {
      OnlyObjects(doc, m.key, m.value);
    }
  }

  lemma PathMembersStep(doc: StateDoc, front: seq<Member>, m: Member)
    requires AllEntries(front)
    ensures AllEntries(front + [m]) <==> IsEntry(m)
    ensures Run(AtFiles(doc.(files := FilesOf(front))), [Key(m.key)] + Events(m.value))
         == if IsEntry(m) then Some(AtFiles(doc.(files := FilesOf(front + [m])))) else None
  {
    PathMember(doc.(files := FilesOf(front)), m);
    assert (front + [m])[|front|] == m;
    if IsEntry(m) { FilesStep(front, m); }
  }

  lemma {:induction false} PathMembers(doc: StateDoc, members: seq<Member>)
    ensures Run(AtFiles(doc.(files := map[])), MemberEvents(members))
         == if AllEntries(members) then Some(AtFiles(doc.(files := FilesOf(members)))) else None
    decreases |members|
  {
    if members != [] {
      var front, m := members[..|members| - 1], members[|members| - 1];
      assert members == front + [m];
      LastMember(front, m);
      PathMembers(doc, front);
      RunAppend(AtFiles(doc.(files := map[])), MemberEvents(front), [Key(m.key)] + Events(m.value));
      if AllEntries(front) { PathMembersStep(doc, front, m); }
    }
  }

  // ---- at the root ----

  function AtRoot(key: string, doc: StateDoc, saw: bool): Reader
  {
    Reader([], doc, true, false, saw).Push(NewFrame(Root).(key := key))
  }

  lemma FilesClose(doc: StateDoc)
    ensures Run(AtFiles(doc), [EndObject]) == Some(AtRoot("", doc, true))
  {
    assert [EndObject] == [EndObject] + [];
    RunStep(AtFiles(doc), EndObject, []);
  }

  lemma FilesOpen(doc: StateDoc, saw: bool, rest: seq<Event>)
    ensures Run(AtRoot("FileStates", doc, saw), [StartObject] + rest) == Run(AtFiles(doc.(files := map[])), rest)
  {
    RunStep(AtRoot("FileStates", doc, saw), StartObject, rest);
  }

  lemma FilesValue(doc: StateDoc, saw: bool, v: Json)
    requires v.JObject?
    ensures Run(AtRoot("FileStates", doc, saw), Events(v))
         == if IsFiles(v) then Some(AtRoot("", doc.(files := FilesOf(v.members)), true)) else None
  {
    assert Events(v) == [StartObject] + (MemberEvents(v.members) + [EndObject]);
    FilesOpen(doc, saw, MemberEvents(v.members) + [EndObject]);
    PathMembers(doc, v.members);
    RunAppend(AtFiles(doc.(files := map[])), MemberEvents(v.members), [EndObject]);
    if AllEntries(v.members) { FilesClose(doc.(files := FilesOf(v.members))); }
  }

  predicate Readable(m: Member)
  {
    m.key == "FileStates" ==> m.value.JString? || m.value.JInteger? || m.value.JUnsigned? || IsFiles(m.value)
  }

  lemma FilesScalar(doc: StateDoc, saw: bool, v: Json)
    requires !v.JObject?
    ensures Run(AtRoot("FileStates", doc, saw), Events(v))
         == if v.JString? || v.JInteger? || v.JUnsigned? then Some(AtRoot("FileStates", doc, saw)) else None
  {
    var r, e := AtRoot("FileStates", doc, saw), Events(v)[0];
    assert Events(v) == [e] + Events(v)[1..];
    RunStep(r, e, Events(v)[1..]);
  }

  lemma RootValue(key: string, doc: StateDoc, saw: bool, v: Json)
    requires key != "FileStates"
    ensures Run(AtRoot(key, doc, saw), Events(v)) == Some(AtRoot(key, if v.JString? then SetText(doc, key, v.s) else doc, saw))
  {
    var r := AtRoot(key, doc, saw);
    if v.JArray? {
      IgnoresArray(r, v);
    } else if v.JObject? {
      IgnoresObject(r, v);
    } else {
      var e := Events(v)[0];
      assert Events(v) == [e] + [];
      RunStep(r, e, []);
    }
  }

  lemma RootKey(key: string, doc: StateDoc, saw: bool, k: string, rest: seq<Event>)
    ensures Run(AtRoot(key, doc, saw), [Key(k)] + rest) == Run(AtRoot(k, SetText(doc, k, ""), saw), rest)
  {
    RunStep(AtRoot(key, doc, saw), Key(k), rest);
  }

  predicate Opening(m: Member) { m.key == "FileStates" && m.value.JObject? }

  /** What one more member at the end changes. */
  function After(doc: StateDoc, m: Member): StateDoc
  {
    StateDoc(
      if m.key == "Version" then Text(m.value) else doc.version,
      if m.key == "LastBackupTime" then Text(m.value) else doc.lastTime,
      if m.key == "LastBackupFileName" then Text(m.value) else doc.last,
      if m.key == "BasedOnFullBackup" then Text(m.value) else doc.basedOn,
      if m.key == "FileStates" && IsFiles(m.value) then FilesOf(m.value.members) else doc.files)
  }

  lemma TextAfter(doc: StateDoc, m: Member)
    requires !Opening(m)
    ensures After(doc, m) == if m.value.JString? then SetText(SetText(doc, m.key, ""), m.key, m.value.s) else SetText(doc, m.key, "")
  {}

  lemma RootMember(key: string, doc: StateDoc, saw: bool, m: Member)
    ensures Run(AtRoot(key, doc, saw), [Key(m.key)] + Events(m.value))
         == if Readable(m) then Some(AtRoot(if Opening(m) then "" else m.key, After(doc, m), saw || Opening(m))) else None
  {
    RootKey(key, doc, saw, m.key, Events(m.value));
    if Opening(m) {
      FilesValue(doc, saw, m.value);
    } else if m.key == "FileStates" {
      FilesScalar(doc, saw, m.value);
    } else {
      RootValue(m.key, SetText(doc, m.key, ""), saw, m.value);
      TextAfter(doc, m);
    }
  }

  /** What the reader holds between two members: as long as no version came up it is 3.0. */
  function HeldDoc(members: seq<Member>): StateDoc
  {
    Said(members).(version := if Find(members, "Version").None? then "3.0" else TextUnder(members, "Version"))
  }

  function KeyHeld(members: seq<Member>): string
  {
    if members == [] || Opening(members[|members| - 1]) then "" else members[|members| - 1].key
  }

  lemma DocAfter(front: seq<Member>, m: Member)
    ensures HeldDoc(front + [m]) == After(HeldDoc(front), m)
  {
    var members := front + [m];
    assert members[|members| - 1] == m && members[..|members| - 1] == front;
  }

  lemma FilesAfter(front: seq<Member>, m: Member)
    ensures FilesReadable(front + [m]) <==> FilesReadable(front) && Readable(m)
    ensures FilesUnder(front + [m]).Some? <==> FilesUnder(front).Some? || (Opening(m) && Readable(m))
    ensures KeyHeld(front + [m]) == if Opening(m) then "" else m.key
  {
    var members := front + [m];
    assert members[|members| - 1] == m && members[..|members| - 1] == front;
    assert forall i | 0 <= i < |front| :: members[i] == front[i];
  }

  lemma {:induction false} MembersRun(members: seq<Member>)
    ensures Run(AtRoot("", EMPTY_DOC, false), MemberEvents(members))
         == if FilesReadable(members) then Some(AtRoot(KeyHeld(members), HeldDoc(members), FilesUnder(members).Some?)) else None
    decreases |members|
  {
    if members == [] {
      assert HeldDoc(members) == EMPTY_DOC;
    } else {
      var front, m := members[..|members| - 1], members[|members| - 1];
      assert members == front + [m];
      LastMember(front, m);
      MembersRun(front);
      RunAppend(AtRoot("", EMPTY_DOC, false), MemberEvents(front), [Key(m.key)] + Events(m.value));
      FilesAfter(front, m);
      if FilesReadable(front) {
        RootMember(KeyHeld(front), HeldDoc(front), FilesUnder(front).Some?, m);
        DocAfter(front, m);
      }
    }
  }

  lemma RootRuns(body: seq<Event>)
    ensures Run(NEW_READER, [StartObject] + body + [EndObject])
         == if Run(AtRoot("", EMPTY_DOC, false), body).None? then None
            else Run(Run(AtRoot("", EMPTY_DOC, false), body).value, [EndObject])
  {
    assert [StartObject] + body + [EndObject] == [StartObject] + (body + [EndObject]);
    RunStep(NEW_READER, StartObject, body + [EndObject]);
    assert Step(NEW_READER, StartObject) == Some(AtRoot("", EMPTY_DOC, false));
    RunAppend(AtRoot("", EMPTY_DOC, false), body, [EndObject]);
  }

  lemma RootEnds(key: string, doc: StateDoc, saw: bool)
    ensures Run(AtRoot(key, doc, saw), [EndObject]) == Some(Reader([], doc, true, true, saw))
  {
    assert [EndObject] == [EndObject] + [];
    RunStep(AtRoot(key, doc, saw), EndObject, []);
  }

  predicate SafeReferences(doc: StateDoc)
  {
    && (doc.last == "" || IsSafeSinglePathSegment(doc.last))
    && (doc.basedOn == "" || IsSafeSinglePathSegment(doc.basedOn))
  }

  lemma Completed(members: seq<Member>)
    ensures Complete(Reader([], HeldDoc(members), true, true, FilesUnder(members).Some?))
         == if FilesUnder(members).Some? && SafeReferences(Said(members)) then Some(Said(members)) else None
  {}

  /** Exactly what reading any document gives. */
  lemma DocumentReads(members: seq<Member>)
    ensures Parse(Events(JObject(members)))
         == if FilesReadable(members) && FilesUnder(members).Some? && SafeReferences(Said(members)) then Some(Said(members)) else None
  {
    RootRuns(MemberEvents(members));
    MembersRun(members);
    if FilesReadable(members) { RootEnds(KeyHeld(members), HeldDoc(members), FilesUnder(members).Some?); }
    Completed(members);
    assert Events(JObject(members)) == [StartObject] + MemberEvents(members) + [EndObject];
  }

  lemma OnlyObjectsParse(v: Json)
    requires !v.JObject?
    ensures Parse(Events(v)).None?
  {
    assert Step(NEW_READER, Events(v)[0]).None?;
  }

  // ---- reading what was written ----

  lemma FileReads(f: FileState)
    ensures IsFile(FileValue(f)) <==> f.lastWrite != ""
    ensures f.lastWrite != "" ==> FileSaid(FileValue(f)) == f
  {
    var m := FileValue(f).members;
    FoundAt(m, "Size", 0);
    FoundAt(m, "LastWriteTimeUtc", 1);
    FoundAt(m, "Hash", 2);
  }

  function Sub(files: map<Path, FileState>, paths: seq<Path>): map<Path, FileState>
  {
    map p | p in paths && p in files :: files[p]
  }

  lemma FileMembersStep(files: map<Path, FileState>, front: seq<Path>, p: Path)
    requires AllNormalize(files, front) && p in files && NormalizeRelativeEntry(p).Some?
    ensures AllNormalize(files, front + [p])
    ensures FileMembers(files, front + [p])
         == FileMembers(files, front) + [Member(NormalizeRelativeEntry(p).value, FileValue(files[p]))]
  {
    assert (front + [p])[|front|] == p && (front + [p])[..|front|] == front;
  }

  lemma FilesStep(front: seq<Member>, m: Member)
    requires AllEntries(front) && IsEntry(m)
    ensures AllEntries(front + [m])
    ensures FilesOf(front + [m]) == FilesOf(front)[NormalizeRelativeEntry(m.key).value := FileSaid(m.value)]
  {
    assert (front + [m])[..|front|] == front;
  }

  lemma {:induction false} FilesRead(files: map<Path, FileState>, paths: seq<Path>)
    requires AllNormalize(files, paths)
    requires forall p | p in paths :: SafeRelative(p) && files[p].lastWrite != ""
    ensures AllEntries(FileMembers(files, paths)) && FilesOf(FileMembers(files, paths)) == Sub(files, paths)
    decreases |paths|
  {
    if paths == [] {
      assert FileMembers(files, paths) == [] && Sub(files, paths) == map[];
    } else {
      var front, p := paths[..|paths| - 1], paths[|paths| - 1];
      assert paths == front + [p];
      FileMembersStep(files, front, p);
      FilesRead(files, front);
      SafeNormalizes(p);
      FileReads(files[p]);
      FilesStep(FileMembers(files, front), Member(p, FileValue(files[p])));
      assert Sub(files, front)[p := files[p]] == Sub(files, paths);
    }
  }

  lemma DocumentKeys(s: StateDoc)
    requires Writable(s)
    ensures var m := Document(s).members;
      && |m| == 5 && m[0].key == "Version" && m[1].key == "LastBackupTime" && m[2].key == "LastBackupFileName"
      && m[3].key == "BasedOnFullBackup" && m[4].key == "FileStates"
  {}

  lemma TextsSaid(s: StateDoc, m: seq<Member>)
    requires Writable(s) && m == Document(s).members
    ensures TextUnder(m, "Version") == "3.0" && TextUnder(m, "LastBackupTime") == s.lastTime
    ensures TextUnder(m, "LastBackupFileName") == s.last && TextUnder(m, "BasedOnFullBackup") == s.basedOn
  {
    DocumentKeys(s);
    TextAt(m, 0, "Version", "3.0");
    TextAt(m, 1, "LastBackupTime", s.lastTime);
    TextAt(m, 2, "LastBackupFileName", s.last);
    TextAt(m, 3, "BasedOnFullBackup", s.basedOn);
  }

  lemma FilesSaid(s: StateDoc, paths: seq<Path>)
    requires Writable(s) && FilesSane(s.files) && paths == Listing(s.files.Keys) && AllNormalize(s.files, paths)
    ensures var v := JObject(FileMembers(s.files, paths)); IsFiles(v) && FilesOf(v.members) == s.files
  {
    forall p ensures p in paths <==> p in s.files { assert p in paths <==> p in Elems(paths); }
    FilesRead(s.files, paths);
    assert Sub(s.files, paths) == s.files;
  }

  lemma FilesLast(m: seq<Member>)
    requires |m| == 5 && m[0].key == "Version" && m[1].key == "LastBackupTime" && m[2].key == "LastBackupFileName"
    requires m[3].key == "BasedOnFullBackup" && m[4].key == "FileStates" && IsFiles(m[4].value)
    ensures FilesReadable(m) && FilesUnder(m) == Some(FilesOf(m[4].value.members))
  {}

  lemma DocumentSays(s: StateDoc)
    requires Writable(s) && FilesSane(s.files)
    ensures var m := Document(s).members;
      FilesReadable(m) && FilesUnder(m) == Some(s.files) && Said(m) == s.(version := "3.0")
  {
    AllWritable(s.files);
    FilesSaid(s, Listing(s.files.Keys));
    DocumentKeys(s);
    FilesLast(Document(s).members);
    TextsSaid(s, Document(s).members);
  }

  lemma ValidRoundTrip(s: StateDoc)
    requires ValidDoc(s)
    ensures Writable(s) && Parse(Events(Document(s))) == Some(s.(version := "3.0"))
  {
    forall p | p in s.files ensures NormalizeRelativeEntry(p).Some? { SafeNormalizes(p); }
    DocumentSays(s);
    DocumentReads(Document(s).members);
  }

  /** A state survives being written and read back exactly when it is valid and of version 3.0. */
  lemma StateRoundTrip(s: StateDoc)
    requires Writable(s)
    ensures Parse(Events(Document(s))) == Some(s) <==> ValidDoc(s) && s.version == "3.0"
  {
    if Parse(Events(Document(s))) == Some(s) { AcceptedIsValid(Events(Document(s))); VersionRead(s); }
    if ValidDoc(s) { ValidRoundTrip(s); }
  }

  lemma VersionRead(s: StateDoc)
    requires Writable(s) && Parse(Events(Document(s))) == Some(s)
    ensures s.version == "3.0"
  {
    var m := Document(s).members;
    DocumentReads(m);
    DocumentKeys(s);
    FoundAt(m, "Version", 0);
  }

  /** Whatever was loaded, saving it and loading it again gives the same state under version 3.0. */
  lemma LoadedStateResaves(events: seq<Event>)
    requires Parse(events).Some?
    ensures Writable(Parse(events).value)
    ensures Parse(Events(Document(Parse(events).value))) == Some(Parse(events).value.(version := "3.0"))
  {
    AcceptedIsValid(events);
    ValidRoundTrip(Parse(events).value);
  }

  // ---- unknown members ----

  predicate Known(key: string)
  {
    key in {"Version", "LastBackupTime", "LastBackupFileName", "BasedOnFullBackup", "FileStates"}
  }

  predicate Ignores(r: Reader)
  {
    r.frames != [] && (r.Top().kind == IgnoredObject || r.Top().kind == IgnoredArray
                       || (r.Top().kind == Root && !Known(r.Top().key)))
  }

  /** A value of any shape and depth passes through an ignoring reader without a trace. */
  lemma {:induction false} IgnoresValue(r: Reader, v: Json)
    requires Ignores(r)
    ensures Run(r, Events(v)) == Some(r)
    decreases v, 1
  {
    match v
    case JArray(items) => IgnoresArray(r, v);
    case JObject(members) => IgnoresObject(r, v);
    case _ =>
      var e := Events(v)[0];
      assert Events(v) == [e] + [];
      assert Step(r, e) == Some(r);
      RunStep(r, e, []);
  }

  lemma {:induction false} IgnoresArray(r: Reader, v: Json)
    requires Primitive(r) && v.JArray?
    ensures Run(r, Events(v)) == Some(r)
    decreases v, 0
  {
    var inner := r.Push(NewFrame(IgnoredArray));
    var body := ItemEvents(v.items);
    assert [StartArray] + body + [EndArray] == [StartArray] + (body + [EndArray]);
    RunStep(r, StartArray, body + [EndArray]);
    IgnoresItems(inner, v.items);
    RunAppend(inner, body, [EndArray]);
    IgnoredCloses(r, NewFrame(IgnoredArray), EndArray);
  }

  lemma IgnoredCloses(r: Reader, top: Frame, e: Event)
    requires (top.kind == IgnoredArray && e == EndArray) || (top.kind == IgnoredObject && e == EndObject)
    ensures Run(r.Push(top), [e]) == Some(r)
  {
    assert [e] == [e] + [];
    RunStep(r.Push(top), e, []);
  }

  lemma {:induction false} IgnoresObject(r: Reader, v: Json)
    requires Primitive(r) && v.JObject?
    ensures Run(r, Events(v)) == Some(r)
    decreases v, 0
  {
    var inner := r.Push(NewFrame(IgnoredObject));
    var body := MemberEvents(v.members);
    assert [StartObject] + body + [EndObject] == [StartObject] + (body + [EndObject]);
    RunStep(r, StartObject, body + [EndObject]);
    IgnoresMembers(inner, v.members);
    RunAppend(inner, body, [EndObject]);
    IgnoredCloses(r, NewFrame(IgnoredObject).(key := LastKey(v.members, "")), EndObject);
  }

  lemma {:induction false} IgnoresItems(r: Reader, items: seq<Json>)
    requires Ignores(r)
    ensures Run(r, ItemEvents(items)) == Some(r)
    decreases items, 0
  {
    if items != [] {
      IgnoresValue(r, items[0]);
      IgnoresItems(r, items[1..]);
      RunAppend(r, Events(items[0]), ItemEvents(items[1..]));
    }
  }

  lemma {:induction false} IgnoresMembers(r: Reader, members: seq<Member>)
    requires r.frames != [] && r.Top().kind == IgnoredObject
    ensures Run(r, MemberEvents(members)) == Some(r.WithTop(r.Top().(key := LastKey(members, r.Top().key))))
    decreases members, 0
  {
    if members == [] {
      SameTop(r);
    } else {
      var next := r.WithTop(r.Top().(key := members[0].key));
      var value, rest := Events(members[0].value), MemberEvents(members[1..]);
      assert MemberEvents(members) == [Key(members[0].key)] + (value + rest);
      RunStep(r, Key(members[0].key), value + rest);
      IgnoresValue(next, members[0].value);
      RunAppend(next, value, rest);
      IgnoresMembers(next, members[1..]);
    }
  }

  lemma SameTop(r: Reader)
    requires r.frames != []
    ensures r.WithTop(r.Top()) == r
  {
    assert r.frames[..|r.frames| - 1] + [r.Top()] == r.frames;
  }

  lemma UnknownMemberRuns(r: Reader, key: string, v: Json)
    requires r.frames != [] && r.Top().kind == Root && !Known(key)
    ensures Run(r, [Key(key)] + Events(v)) == Some(r.WithTop(r.Top().(key := key)))
  {
    var q := r.WithTop(r.Top().(key := key));
    RunStep(r, Key(key), Events(v));
    IgnoresValue(q, v);
  }

  /** At the root the pending key matters neither to the next key nor to the end of the document. */
  lemma PendingKeyIsLost(r: Reader, key: string, e: Event)
    requires r.frames != [] && r.Top().kind == Root && (e.Key? || e.EndObject?)
    ensures Step(r.WithTop(r.Top().(key := key)), e) == Step(r, e)
  {
  }

  /** Between two members at the root, any member with an unknown key changes nothing. */
  lemma UnknownMemberIsIgnored(before: seq<Event>, key: string, v: Json, after: seq<Event>)
    requires !Known(key)
    requires Run(NEW_READER, before).Some? ==>
               var r := Run(NEW_READER, before).value; |r.frames| == 1 && r.Top().kind == Root
    requires after != [] && (after[0].Key? || after[0].EndObject?)
    ensures Parse(before + ([Key(key)] + Events(v)) + after) == Parse(before + after)
  {
    RunAppend(NEW_READER, before, after);
    RunAppend(NEW_READER, before, [Key(key)] + Events(v));
    RunAppend(NEW_READER, before + ([Key(key)] + Events(v)), after);
    if Run(NEW_READER, before).Some? {
      var r := Run(NEW_READER, before).value;
      UnknownMemberRuns(r, key, v);
      PendingKeyIsLost(r, key, after[0]);
    }
  }
}
