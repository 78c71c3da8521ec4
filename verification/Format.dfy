/** Text rules of the storage format: path segments, relative paths, archive file names. */
module Format {
  import opened Names

  predicate IsSpace(c: char) { c == ' ' || '\t' <= c <= '\r' }

  /** Control characters and the characters Windows forbids in a path segment. */
  predicate IsInvalid(c: char) { c < ' ' || c in "\\/:*?\"<>|" }

  function TrimLeft(s: string): string
  {
    if s != "" && IsSpace(s[0]) then TrimLeft(s[1..]) else s
  }

  function TrimRight(s: string): string
  {
    if s != "" && IsSpace(s[|s| - 1]) then TrimRight(s[..|s| - 1]) else s
  }

  function Trim(s: string): string { TrimRight(TrimLeft(s)) }

  predicate BadEnd(c: char) { c == '.' || IsSpace(c) }

  function StripEnd(s: string): (r: string)
    ensures r <= s && (r != "" ==> !BadEnd(r[|r| - 1]))
  {
    if s != "" && BadEnd(s[|s| - 1]) then StripEnd(s[..|s| - 1]) else s
  }

  function Underscored(s: string): (r: string)
    ensures |r| == |s|
  {
    seq(|s|, i requires 0 <= i < |s| => if IsInvalid(s[i]) then '_' else s[i])
  }

  /** The part before the first dot. */
  function BeforeDot(s: string): (r: string)
    ensures r <= s && (|r| < |s| ==> s[|r|] == '.') && forall i | 0 <= i < |r| :: r[i] != '.'
  {
    if s == "" || s[0] == '.' then "" else [s[0]] + BeforeDot(s[1..])
  }

  predicate IsDeviceOrdinal(c: char) { '1' <= c <= '9' || c == '\U{00B9}' || c == '\U{00B2}' || c == '\U{00B3}' }

  predicate IsDeviceStem(stem: string)
  {
    || stem in {"con", "prn", "aux", "nul", "conin$", "conout$"}
    || (|stem| == 4 && (stem[..3] == "com" || stem[..3] == "lpt") && IsDeviceOrdinal(stem[3]))
  }

  predicate IsReservedDeviceName(value: string)
  {
    IsDeviceStem(Lower(StripEnd(BeforeDot(Trim(value)))))
  }

  function RemapReservedDeviceName(value: string): string
  {
    if !IsReservedDeviceName(value) then value
    else BeforeDot(value) + "_" + value[|BeforeDot(value)|..]
  }

  function Sanitized(value: string): string
  {
    RemapReservedDeviceName(StripEnd(Underscored(Trim(value))))
  }

  method ReplaceInvalid(value: string) returns (r: string)
    ensures r == Underscored(value)
  {
    r := value;
    for i := 0 to |r|
      invariant |r| == |value|
      invariant forall j | 0 <= j < |r| :: r[j] == if j < i then Underscored(value)[j] else value[j]
    {
      if IsInvalid(r[i]) { r := r[i := '_']; }
    }
  }

  method SanitizePathSegment(value: string) returns (r: string)
    ensures r == Sanitized(value)
  {
    r := ReplaceInvalid(Trim(value));
    while r != "" && BadEnd(r[|r| - 1])
      invariant StripEnd(r) == StripEnd(Underscored(Trim(value)))
      decreases |r|
    {
      r := r[..|r| - 1];
    }
    r := RemapReservedDeviceName(r);
  }

  predicate IsSafeSinglePathSegment(value: string)
  {
    && value != ""
    && !BadEnd(value[|value| - 1])
    && !IsReservedDeviceName(value)
    && forall i | 0 <= i < |value| :: !IsInvalid(value[i])
  }

  // ---- sanitising ----

  lemma {:induction false} TrimLeftFixed(s: string)
    ensures TrimLeft(s) == "" || !IsSpace(TrimLeft(s)[0])
  {
    if s != "" && IsSpace(s[0]) { TrimLeftFixed(s[1..]); }
  }

  lemma {:induction false} TrimRightPrefix(s: string)
    ensures TrimRight(s) <= s
    ensures TrimRight(s) != "" ==> !IsSpace(TrimRight(s)[|TrimRight(s)| - 1])
  {
    if s != "" && IsSpace(s[|s| - 1]) { TrimRightPrefix(s[..|s| - 1]); }
  }

  lemma TrimEnds(s: string)
    ensures Trim(s) != "" ==> !IsSpace(Trim(s)[0]) && !IsSpace(Trim(s)[|Trim(s)| - 1])
  {
    TrimLeftFixed(s);
    TrimRightPrefix(TrimLeft(s));
  }

  lemma UnderscoreFrees(p: string, rest: string)
    requires forall i | 0 <= i < |p| :: p[i] != '.'
    requires rest == "" || rest[0] == '.'
    requires Trim(p + "_" + rest) == p + "_" + rest
    ensures !IsReservedDeviceName(p + "_" + rest)
  {
    var q := p + "_";
    BeforeDotOf(q, rest);
    assert StripEnd(q) == q;
    assert Lower(q)[|p|] == '_';
    NotADevice(Lower(q));
  }

  lemma SolidEnds(u: string)
    requires u != "" && !IsSpace(u[0]) && !BadEnd(u[|u| - 1])
    ensures Trim(u) == u
  {
  }

  /** A reserved name with an underscore before its first dot is no longer reserved. */
  lemma RemapFrees(u: string)
    requires u != "" && !IsSpace(u[0]) && !BadEnd(u[|u| - 1])
    ensures !IsReservedDeviceName(RemapReservedDeviceName(u))
    ensures var r := RemapReservedDeviceName(u); r != "" && !IsSpace(r[0]) && !BadEnd(r[|r| - 1])
  {
    if IsReservedDeviceName(u) {
      var p := BeforeDot(u);
      var r := p + "_" + u[|p|..];
      assert r[0] == if p == "" then '_' else p[0];
      assert |r| == |u| + 1 && r[|u|] == if p == u then '_' else u[|u| - 1];
      SolidEnds(r);
      UnderscoreFrees(p, u[|p|..]);
    }
  }

  lemma NotADevice(stem: string)
    requires stem != "" && stem[|stem| - 1] == '_'
    ensures !IsDeviceStem(stem)
  {
    assert "con"[2] == 'n' && "prn"[2] == 'n' && "aux"[2] == 'x' && "nul"[2] == 'l';
    assert "conin$"[5] == '$' && "conout$"[6] == '$';
  }

  lemma {:induction false} BeforeDotOf(p: string, rest: string)
    requires forall i | 0 <= i < |p| :: p[i] != '.'
    requires rest == "" || rest[0] == '.'
    ensures BeforeDot(p + rest) == p
  {
    if p == "" {
      assert p + rest == rest;
    } else {
      assert (p + rest)[1..] == p[1..] + rest;
      BeforeDotOf(p[1..], rest);
    }
  }

  lemma StrippedValid(value: string)
    ensures var u := StripEnd(Underscored(Trim(value)));
      && (forall i | 0 <= i < |u| :: !IsInvalid(u[i]))
      && (u != "" ==> !IsSpace(u[0]) && !BadEnd(u[|u| - 1]))
  {
    TrimEnds(value);
    var t := Trim(value);
    var u := StripEnd(Underscored(t));
    assert u <= Underscored(t);
  }

  lemma RemapValid(u: string)
    requires forall i | 0 <= i < |u| :: !IsInvalid(u[i])
    ensures var r := RemapReservedDeviceName(u); forall i | 0 <= i < |r| :: !IsInvalid(r[i])
  {}

  /** Sanitising yields the empty string or a safe segment that does not start with a space. */
  lemma SanitizedIsSafe(value: string)
    ensures var r := Sanitized(value); r == "" || (IsSafeSinglePathSegment(r) && !IsSpace(r[0]))
  {
    StrippedValid(value);
    SafeOrEmpty(StripEnd(Underscored(Trim(value))));
  }

  lemma SafeOrEmpty(u: string)
    requires forall i | 0 <= i < |u| :: !IsInvalid(u[i])
    requires u != "" ==> !IsSpace(u[0]) && !BadEnd(u[|u| - 1])
    ensures var r := RemapReservedDeviceName(u); r == "" || (IsSafeSinglePathSegment(r) && !IsSpace(r[0]))
  {
    if u == "" {
      assert Lower("") == "";
    } else {
      RemapValid(u);
      RemapFrees(u);
    }
  }

  lemma StrippedFixed(value: string)
    requires value != "" && !IsSpace(value[0]) && !BadEnd(value[|value| - 1])
    requires forall i | 0 <= i < |value| :: !IsInvalid(value[i])
    ensures StripEnd(Underscored(Trim(value))) == value
  {
    assert Trim(value) == value;
    assert Underscored(value) == value;
  }

  /** Sanitising leaves alone exactly the safe segments without leading space, and the empty string. */
  lemma SanitizedFixed(value: string)
    ensures Sanitized(value) == value <==> value == "" || (IsSafeSinglePathSegment(value) && !IsSpace(value[0]))
  {
    SanitizedIsSafe(value);
    if value == "" {
      EmptyFixed();
    } else if IsSafeSinglePathSegment(value) && !IsSpace(value[0]) {
      StrippedFixed(value);
    }
  }

  lemma {:induction false} TrimLeftDrops(s: string)
    ensures |TrimLeft(s)| <= |s| && var a := |s| - |TrimLeft(s)|;
      TrimLeft(s) == s[a..] && forall i | 0 <= i < a :: IsSpace(s[i])
  {
    if s != "" && IsSpace(s[0]) {
      TrimLeftDrops(s[1..]);
      var a := |s| - |TrimLeft(s)|;
      forall i | 0 <= i < a ensures IsSpace(s[i]) { assert i > 0 ==> s[i] == s[1..][i - 1]; }
    }
  }

  lemma {:induction false} TrimRightDrops(s: string)
    ensures TrimRight(s) <= s && forall i | |TrimRight(s)| <= i < |s| :: IsSpace(s[i])
  {
    if s != "" && IsSpace(s[|s| - 1]) { TrimRightDrops(s[..|s| - 1]); }
  }

  lemma {:induction false} StripEndDrops(s: string)
    ensures forall i | |StripEnd(s)| <= i < |s| :: s[i] == '.' || IsSpace(s[i])
  {
    if s != "" && BadEnd(s[|s| - 1]) { StripEndDrops(s[..|s| - 1]); }
  }

  /** A character as a segment shows it: control characters and \ / : * ? " < > | become underscores. */
  function Shown(c: char): char
  {
    if c < ' ' || c == '\\' || c == '/' || c == ':' || c == '*' || c == '?' || c == '"' || c == '<' || c == '>' || c == '|'
    then '_' else c
  }

  function ShownAll(s: string): string { seq(|s|, i requires 0 <= i < |s| => Shown(s[i])) }

  lemma TrimKeeps(value: string) returns (a: nat, b: nat)
    ensures a <= b <= |value| && Trim(value) == value[a..b] && (a < b ==> !IsSpace(value[a]))
    ensures forall i | 0 <= i < a || b <= i < |value| :: IsSpace(value[i])
  {
    var left := TrimLeft(value);
    TrimLeftDrops(value);
    TrimLeftFixed(value);
    TrimRightDrops(left);
    a := |value| - |left|;
    b := a + |Trim(value)|;
    forall i | b <= i < |value| ensures IsSpace(value[i]) { assert value[i] == left[i - a]; }
  }

  lemma StripKeeps(t: string) returns (n: nat)
    ensures n <= |t| && StripEnd(Underscored(t)) == ShownAll(t[..n])
    ensures forall i | n <= i < |t| :: t[i] == '.' || IsSpace(t[i])
    ensures n > 0 ==> Shown(t[n - 1]) != '.' && !IsSpace(Shown(t[n - 1]))
  {
    var shown := Underscored(t);
    StripEndDrops(shown);
    n := |StripEnd(shown)|;
    assert shown == ShownAll(t);
    forall i | n <= i < |t| ensures t[i] == '.' || IsSpace(t[i]) { assert shown[i] == '.' || IsSpace(shown[i]); }
  }

  /** What sanitising keeps: all from the first character that is no space to the last one that is neither a dot nor a
      space, character by character, with an underscore before the first dot of a device name. */
  lemma SanitizedKeeps(value: string) returns (a: nat, b: nat)
    ensures a <= b <= |value|
    ensures forall i | 0 <= i < a :: IsSpace(value[i])
    ensures forall i | b <= i < |value| :: value[i] == '.' || IsSpace(value[i])
    ensures a < b ==> !IsSpace(value[a]) && Shown(value[b - 1]) != '.' && !IsSpace(Shown(value[b - 1]))
    ensures var u := ShownAll(value[a..b]);
      Sanitized(value) == if IsReservedDeviceName(u) then BeforeDot(u) + "_" + u[|BeforeDot(u)|..] else u
  {
    var end;
    a, end := TrimKeeps(value);
    var t := value[a..end];
    var n := StripKeeps(t);
    b := a + n;
    assert t[..n] == value[a..b];
    forall i | b <= i < |value| ensures value[i] == '.' || IsSpace(value[i]) {
      if i < end { assert value[i] == t[i - a]; }
    }
  }

  lemma EmptyFixed()
    ensures Sanitized("") == ""
  {
    assert Trim("") == "" && Underscored("") == "";
    assert Lower("") == "";
  }

  lemma SanitizeIdempotent(value: string)
    ensures Sanitized(Sanitized(value)) == Sanitized(value)
  {
    SanitizedIsSafe(value);
    SanitizedFixed(Sanitized(value));
  }

  // ---- relative paths ----

  predicate IsSeparator(c: char) { c == '/' || c == '\\' }

  function Segments(s: string): (r: seq<string>)
    ensures |r| > 0
  {
    if s == "" then [""]
    else
      var rest := Segments(s[1..]);
      if IsSeparator(s[0]) then [""] + rest else [[s[0]] + rest[0]] + rest[1..]
  }

  function Slashed(s: string): (r: string)
    ensures |r| == |s|
  {
    seq(|s|, i requires 0 <= i < |s| => if s[i] == '\\' then '/' else s[i])
  }

  predicate SafeRelative(p: string)
  {
    Slashed(p) == p && forall seg | seg in Segments(p) :: IsSafeSinglePathSegment(seg)
  }

  /** Forward slashes throughout and every segment safe, or rejected. */
  function NormalizeRelativeEntry(value: string): Option<string>
  {
    if value == "" || exists seg | seg in Segments(value) :: seg == "" || seg == "." || seg == ".." then None
    else if SafeRelative(Slashed(value)) then Some(Slashed(value)) else None
  }

  /** An accepted path is normal: normalising it again returns it. */
  lemma NormalizeIsStable(value: string)
    requires NormalizeRelativeEntry(value).Some?
    ensures var n := NormalizeRelativeEntry(value).value; SafeRelative(n) && NormalizeRelativeEntry(n) == Some(n)
  {
    SafeNormalizes(Slashed(value));
  }

  lemma SafeNormalizes(p: string)
    requires SafeRelative(p)
    ensures NormalizeRelativeEntry(p) == Some(p)
  {
    assert Segments("")[0] == "" && "" in Segments("");
  }

  lemma {:induction false} SlashedSegments(s: string)
    ensures Segments(Slashed(s)) == Segments(s)
  {
    if s != "" {
      assert Slashed(s)[1..] == Slashed(s[1..]);
      SlashedSegments(s[1..]);
    }
  }

  /** A path is accepted exactly when each of its parts between slashes or backslashes is a safe segment, and comes out
      with every backslash turned into a slash. */
  lemma NormalizesExactly(value: string)
    ensures NormalizeRelativeEntry(value).Some? <==> forall seg | seg in Segments(value) :: IsSafeSinglePathSegment(seg)
    ensures NormalizeRelativeEntry(value).Some? ==>
              var r := NormalizeRelativeEntry(value).value;
              |r| == |value| && forall i | 0 <= i < |r| :: r[i] == if value[i] == '\\' then '/' else value[i]
  {
    SlashedSegments(value);
    assert Slashed(Slashed(value)) == Slashed(value);
    assert Segments("") == [""];
    assert "" in Segments("");
    assert !IsSafeSinglePathSegment("") && !IsSafeSinglePathSegment(".") && !IsSafeSinglePathSegment("..") by {
      assert BadEnd("."[0]) && BadEnd(".."[1]);
    }
  }

  lemma {:induction false} OnePart(a: string)
    requires forall i | 0 <= i < |a| :: !IsSeparator(a[i])
    ensures Segments(a) == [a]
  {
    if a != "" {
      assert [a[0]] + a[1..] == a;
      OnePart(a[1..]);
    }
  }

  /** The parts of a path: what one slash or backslash joins. */
  lemma {:induction false} SegmentsJoin(a: string, c: char, b: string)
    requires IsSeparator(c)
    ensures Segments(a + [c] + b) == Segments(a) + Segments(b)
  {
    var s := a + [c] + b;
    if a == "" {
      assert s[0] == c && s[1..] == b;
    } else {
      assert s[0] == a[0] && s[1..] == a[1..] + [c] + b;
      SegmentsJoin(a[1..], c, b);
    }
  }

  // ---- archive file names ----

  function Word(k: Kind): string
  {
    match k
    case Full => "Full"
    case Smart => "Smart"
    case Overwrite => "Overwrite"
    case Untyped => "Backup"
  }

  function Marker(k: Kind): string
  {
    match k
    case Full => "[Full]"
    case Smart => "[Smart]"
    case Overwrite => "[Overwrite]"
    case Untyped => "[Backup]"
  }

  /** The text of a name. */
  function Render(n: ArchiveName): string
  {
    if n.Named? then Marker(n.kind) + n.stem else ""
  }

  predicate IsBracket(c: char) { c == '[' || c == ']' }

  ghost predicate NoBrackets(s: string) { forall i | 0 <= i < |s| :: !IsBracket(s[i]) }

  ghost predicate AllValid(s: string) { forall i | 0 <= i < |s| :: !IsInvalid(s[i]) }

  function Unbracketed(s: string): (r: string)
    ensures NoBrackets(r) && forall c | c in r :: c in s
  {
    if s == "" then ""
    else if IsBracket(s[0]) then Unbracketed(s[1..])
    else [s[0]] + Unbracketed(s[1..])
  }

  function SafeComment(comment: string): string { Trim(Unbracketed(Sanitized(comment))) }

  function CommentPart(comment: string): string
  {
    if SafeComment(comment) == "" then "" else " [" + SafeComment(comment) + "]"
  }

  /** The clock, the unique part and the normalised extension of a name. */
  datatype NameParts = NameParts(clock: string, guid: string, extension: string)

  function Tail(parts: NameParts): string { "-" + parts.guid + "." + parts.extension }

  /** The comment goes back into brackets after its own were stripped. */
  function ArchiveStem(folder: string, comment: string, parts: NameParts): string
  {
    "[" + parts.clock + "]" + (Sanitized(folder) + (CommentPart(comment) + Tail(parts)))
  }

  function GeneratedName(kind: Kind, folder: string, comment: string, parts: NameParts): ArchiveName
  {
    Named(kind, ArchiveStem(folder, comment, parts))
  }

  /** What clocks, GUIDs and archive extensions look like. */
  ghost predicate PartsOk(parts: NameParts)
  {
    && NoBrackets(parts.clock) && NoBrackets(parts.guid) && NoBrackets(parts.extension)
    && parts.clock != "" && '0' <= parts.clock[0] <= '9'
    && parts.extension != "" && !BadEnd(parts.extension[|parts.extension| - 1])
    && AllValid(parts.clock) && AllValid(parts.guid) && AllValid(parts.extension)
  }

  // The type tests as the program applies them to a type or a file name.

  predicate IsSmartText(text: string) { Lower(text) == Lower("Smart") || Holds(text, "[Smart]") }

  predicate IsFullLikeText(text: string)
  {
    || Lower(text) == Lower("Full") || Lower(text) == Lower("Overwrite")
    || Holds(text, "[Full]") || Holds(text, "[Overwrite]")
  }

  // ---- where a marker can occur ----

  lemma {:induction false} HoldsLeft(a: string, b: string, m: string)
    requires Holds(a, m)
    ensures Holds(a + b, m)
  {
    if m <= a {
      assert m <= a + b;
    } else {
      HoldsLeft(a[1..], b, m);
      assert (a + b)[1..] == a[1..] + b;
    }
  }

  lemma {:induction false} HoldsRight(a: string, b: string, m: string)
    requires Holds(b, m)
    ensures Holds(a + b, m)
  {
    if a == "" {
      assert a + b == b;
    } else {
      HoldsRight(a[1..], b, m);
      assert (a + b)[1..] == a[1..] + b;
    }
  }

  /** Where two texts meet, no occurrence of `m` reaches across if the end of the one or the start of
      the other does not fit inside it. */
  ghost predicate Apart(a: string, b: string, m: string)
  {
    && m != ""
    && (a != "" && b != "" ==>
          || (forall i | 0 < i < |m| :: m[i] != b[0])
          || (forall i | 0 <= i < |m| - 1 :: m[i] != a[|a| - 1]))
  }

  lemma {:induction false} HoldsSplit(a: string, b: string, m: string)
    requires Apart(a, b, m)
    ensures Holds(a + b, m) <==> Holds(a, m) || Holds(b, m)
  {
    if Holds(a, m) { HoldsLeft(a, b, m); }
    if Holds(b, m) { HoldsRight(a, b, m); }
    if a == "" {
      assert a + b == b;
    } else {
      assert (a + b)[1..] == a[1..] + b;
      HoldsSplit(a[1..], b, m);
      if |a| < |m| { NoCrossing(a, b, m); }
    }
  }

  lemma NoCrossing(a: string, b: string, m: string)
    requires a != "" && Apart(a, b, m) && |a| < |m|
    ensures !(m <= a + b)
  {
    var k := |a|;
    assert b != "" ==> (a + b)[k] == b[0] && (a + b)[k - 1] == a[k - 1];
  }

  lemma {:induction false} HoldsNeeds(text: string, m: string)
    requires m != "" && forall i | 0 <= i < |text| :: text[i] != m[0]
    ensures !Holds(text, m)
  {
    if text != "" {
      assert text[0] != m[0];
      HoldsNeeds(text[1..], m);
    }
  }

  lemma BracketHolds(c: string, k: string)
    requires NoBrackets(c) && NoBrackets(k)
    ensures Holds("[" + c + "]", "[" + k + "]") <==> c == k
  {
    var text, m := "[" + c + "]", "[" + k + "]";
    assert text[1..] == c + "]";
    HoldsNeeds(c + "]", m);
    if c == k {
      assert m <= text;
    } else {
      OtherWord(c, k);
    }
  }

  lemma OtherWord(c: string, k: string)
    requires NoBrackets(c) && NoBrackets(k) && c != k
    ensures !("[" + k + "]" <= "[" + c + "]")
  {
    var text, m := "[" + c + "]", "[" + k + "]";
    if |k| < |c| {
      assert text[|k| + 1] == c[|k|] && m[|k| + 1] == ']';
    } else if |k| == |c| {
      var i :| 0 <= i < |k| && k[i] != c[i];
      assert text[i + 1] == c[i] && m[i + 1] == k[i];
    }
  }

  /** What matters about a marker for finding it. */
  ghost predicate MarkerLike(m: string)
  {
    && 2 <= |m| && m[0] == '['
    && (forall i | 0 < i < |m| :: m[i] != '[')
    && (forall i | 0 <= i < |m| - 1 :: m[i] != ']')
    && (forall i | 0 <= i < |m| :: m[i] != ' ' && m[i] != '-')
  }

  predicate IsLetter(c: char) { 'A' <= c <= 'Z' || 'a' <= c <= 'z' }

  lemma WordLetters(k: Kind)
    ensures forall i | 0 <= i < |Word(k)| :: IsLetter(Word(k)[i])
    ensures Marker(k) == "[" + Word(k) + "]"
  {}

  lemma MarkerShape(k: Kind)
    ensures Marker(k) == "[" + Word(k) + "]" && NoBrackets(Word(k)) && MarkerLike(Marker(k))
  {
    WordLetters(k);
    LettersShape(Word(k));
  }

  lemma LettersShape(w: string)
    requires forall i | 0 <= i < |w| :: IsLetter(w[i])
    ensures NoBrackets(w) && MarkerLike("[" + w + "]")
  {}

  /** A marker is found in a rendered name exactly when it is the front marker or occurs in the rest. */
  lemma RenderedMarker(n: ArchiveName, k: Kind)
    requires n.Named?
    ensures Holds(Render(n), Marker(k)) <==> n.kind == k || Holds(n.stem, Marker(k))
  {
    MarkerShape(n.kind);
    MarkerShape(k);
    FrontHolds(Word(n.kind), n.stem, Word(k));
  }

  lemma FrontHolds(front: string, rest: string, w: string)
    requires NoBrackets(front) && NoBrackets(w) && MarkerLike("[" + w + "]")
    ensures Holds("[" + front + "]" + rest, "[" + w + "]") <==> front == w || Holds(rest, "[" + w + "]")
  {
    HoldsSplit("[" + front + "]", rest, "[" + w + "]");
    BracketHolds(front, w);
  }

  /** The type tests on the text of a name are the tests the model makes on the name. */
  lemma RenderedReads(n: ArchiveName)
    ensures IsSmartText(Render(n)) <==> ReadsSmart(n)
    ensures IsFullLikeText(Render(n)) <==> ReadsFullLike(n)
  {
    if n.Named? {
      BracketIsNoType(Render(n));
      RenderedMarker(n, Smart);
      RenderedMarker(n, Full);
      RenderedMarker(n, Overwrite);
    }
  }

  lemma BracketIsNoType(text: string)
    requires text != "" && text[0] == '['
    ensures Lower(text) != Lower("Smart") && Lower(text) != Lower("Full") && Lower(text) != Lower("Overwrite")
  {
    assert Lower(text)[0] == '[' && Lower("Smart")[0] == 's' && Lower("Full")[0] == 'f' && Lower("Overwrite")[0] == 'o';
  }

  // ---- generated names ----

  lemma {:induction false} TrimLeftIn(s: string)
    ensures forall c | c in TrimLeft(s) :: c in s
  {
    if s != "" && IsSpace(s[0]) { TrimLeftIn(s[1..]); }
  }

  lemma TrimIn(s: string)
    ensures forall c | c in Trim(s) :: c in s
  {
    TrimLeftIn(s);
    TrimRightPrefix(TrimLeft(s));
  }

  /** A comment in a name has no brackets of its own and no invalid character. */
  lemma SafeCommentPlain(comment: string)
    ensures NoBrackets(SafeComment(comment)) && AllValid(SafeComment(comment))
  {
    var text, r := Sanitized(comment), SafeComment(comment);
    TrimIn(Unbracketed(text));
    SanitizedIsSafe(comment);
    forall i | 0 <= i < |r| ensures !IsBracket(r[i]) && !IsInvalid(r[i]) {
      KeptChar(text, r[i]);
    }
  }

  lemma KeptChar(text: string, c: char)
    requires c in Unbracketed(text) && AllValid(text)
    ensures !IsBracket(c) && !IsInvalid(c)
  {
    var i :| 0 <= i < |Unbracketed(text)| && Unbracketed(text)[i] == c;
  }

  /** A user's comment, or the folder, brings a marker into a name. */
  predicate Brings(folder: string, comment: string, k: Kind)
  {
    SafeComment(comment) == Word(k) || Holds(Sanitized(folder), Marker(k))
  }

  lemma CommentHolds(comment: string, k: Kind)
    ensures Holds(CommentPart(comment), Marker(k)) <==> SafeComment(comment) == Word(k)
  {
    MarkerShape(k);
    SafeCommentPlain(comment);
    if SafeComment(comment) == "" {
      HoldsNeeds("", Marker(k));
    } else {
      BracketedHolds(SafeComment(comment), Word(k));
    }
  }

  lemma BracketedHolds(c: string, w: string)
    requires NoBrackets(c) && NoBrackets(w) && MarkerLike("[" + w + "]")
    ensures Holds(" [" + c + "]", "[" + w + "]") <==> c == w
  {
    var m := "[" + w + "]";
    assert " [" + c + "]" == " " + ("[" + c + "]");
    HoldsSplit(" ", "[" + c + "]", m);
    HoldsNeeds(" ", m);
    BracketHolds(c, w);
  }

  /** Looking for a marker in a name's rest is looking for it in the folder and in the comment. */
  lemma PartsHold(front: string, folder: string, comment: string, tail: string, m: string)
    requires MarkerLike(m) && front != "" && front[|front| - 1] == ']' && tail != "" && tail[0] == '-'
    requires comment != "" ==> comment[0] == ' '
    requires !Holds(front, m) && !Holds(tail, m)
    ensures Holds(front + (folder + (comment + tail)), m) <==> Holds(folder, m) || Holds(comment, m)
  {
    var rest := comment + tail;
    assert rest[0] == ' ' || rest[0] == '-';
    HoldsSplit(front, folder + rest, m);
    HoldsSplit(folder, rest, m);
    HoldsSplit(comment, tail, m);
  }

  /** The rest of a generated name holds a marker exactly when the comment is that word or the folder
      holds the marker. */
  lemma StemHolds(folder: string, comment: string, parts: NameParts, k: Kind)
    requires PartsOk(parts)
    ensures Holds(ArchiveStem(folder, comment, parts), Marker(k)) <==> Brings(folder, comment, k)
  {
    MarkerShape(k);
    CommentHolds(comment, k);
    HoldsNeeds(Tail(parts), Marker(k));
    BracketHolds(parts.clock, Word(k));
    PartsHold("[" + parts.clock + "]", Sanitized(folder), CommentPart(comment), Tail(parts), Marker(k));
  }

  /** The type tests find the type a name was generated with, and besides it whatever type the
      user's comment or the folder spells. */
  lemma GeneratedReads(kind: Kind, folder: string, comment: string, parts: NameParts)
    requires PartsOk(parts)
    ensures var n := GeneratedName(kind, folder, comment, parts);
      && (ReadsSmart(n) <==> IsSmart(kind) || Brings(folder, comment, Smart))
      && (ReadsFullLike(n) <==> IsFullLike(kind) || Brings(folder, comment, Full) || Brings(folder, comment, Overwrite))
  {
    StemHolds(folder, comment, parts, Smart);
    StemHolds(folder, comment, parts, Full);
    StemHolds(folder, comment, parts, Overwrite);
  }

  /** A comment or folder that spells no type other than the name's own. */
  predicate Harmless(kind: Kind, folder: string, comment: string)
  {
    && (Brings(folder, comment, Smart) ==> IsSmart(kind))
    && (Brings(folder, comment, Full) || Brings(folder, comment, Overwrite) ==> IsFullLike(kind))
  }

  /** The type tests read only the generating type if and only if comment and folder are harmless. */
  lemma TypeReadsBackIff(kind: Kind, folder: string, comment: string, parts: NameParts)
    requires PartsOk(parts)
    ensures var text := Render(GeneratedName(kind, folder, comment, parts));
      (IsSmartText(text) <==> IsSmart(kind)) && (IsFullLikeText(text) <==> IsFullLike(kind))
      <==> Harmless(kind, folder, comment)
  {
    GeneratedReads(kind, folder, comment, parts);
    RenderedReads(GeneratedName(kind, folder, comment, parts));
  }

  /** With a folder that holds no marker, only the comments Full and Overwrite mislead on a Smart
      archive, in brackets or not, and only the comment Smart on a checkpoint. */
  lemma HarmlessComment(kind: Kind, folder: string, comment: string)
    requires kind != Untyped && forall k: Kind :: !Holds(Sanitized(folder), Marker(k))
    ensures Harmless(kind, folder, comment) <==>
            SafeComment(comment) !in (if IsSmart(kind) then {"Full", "Overwrite"} else {"Smart"})
  {}

  lemma {:induction false} UnbracketedPlain(c: string)
    requires NoBrackets(c)
    ensures Unbracketed(c) == c && Unbracketed(c + "]") == c
  {
    if c == "" {
      assert c + "]" == "]" && "]"[1..] == "";
    } else {
      UnbracketedPlain(c[1..]);
      assert (c + "]")[1..] == c[1..] + "]";
    }
  }

  /** A type's word as a comment, with or without brackets, ends up between brackets. */
  lemma WordComment(k: Kind)
    ensures SafeComment(Word(k)) == Word(k) && SafeComment(Marker(k)) == Word(k)
  {
    MarkerShape(k);
    UnbracketedPlain(Word(k));
    assert Marker(k)[1..] == Word(k) + "]";
    assert Unbracketed(Marker(k)) == Word(k);
    WordIsSafe(k);
    SanitizedFixed(Word(k));
    SanitizedFixed(Marker(k));
    SolidEnds(Word(k));
  }

  lemma WordIsSafe(k: Kind)
    ensures IsSafeSinglePathSegment(Word(k)) && !IsSpace(Word(k)[0])
    ensures IsSafeSinglePathSegment(Marker(k)) && !IsSpace(Marker(k)[0])
  {
    WordLetters(k);
    LettersValid(Word(k));
    NoDevice(Word(k));
    NoDevice(Marker(k));
  }

  lemma LettersValid(w: string)
    requires forall i | 0 <= i < |w| :: IsLetter(w[i])
    ensures AllValid(w) && AllValid("[" + w + "]")
  {
    assert forall c: char | IsLetter(c) || IsBracket(c) :: !IsInvalid(c);
  }

  /** Device names start with one of five letters. */
  lemma NoDevice(text: string)
    requires text != "" && LowerChar(text[0]) !in "cpanl" && !BadEnd(text[0]) && !BadEnd(text[|text| - 1])
    ensures !IsReservedDeviceName(text)
  {
    SolidEnds(text);
    StripKeepsFirst(BeforeDot(text));
    NoDeviceStem(Lower(StripEnd(BeforeDot(text))));
  }

  lemma NoDeviceStem(stem: string)
    requires stem != "" && stem[0] !in "cpanl"
    ensures !IsDeviceStem(stem)
  {
    assert "con"[0] == 'c' && "prn"[0] == 'p' && "aux"[0] == 'a' && "nul"[0] == 'n' && "conin$"[0] == 'c' && "conout$"[0] == 'c';
    assert "com"[0] == 'c' && "lpt"[0] == 'l';
    assert "cpanl"[0] == 'c' && "cpanl"[1] == 'p' && "cpanl"[2] == 'a' && "cpanl"[3] == 'n' && "cpanl"[4] == 'l';
    if |stem| == 4 { assert stem[..3][0] == stem[0]; }
  }

  lemma {:induction false} StripKeepsFirst(s: string)
    requires s != "" && !BadEnd(s[0])
    ensures StripEnd(s) != "" && StripEnd(s)[0] == s[0]
  {
    if BadEnd(s[|s| - 1]) { StripKeepsFirst(s[..|s| - 1]); }
  }

  lemma MarkerValid(k: Kind)
    ensures Marker(k) != "" && Marker(k)[0] == '[' && AllValid(Marker(k))
  {
    WordIsSafe(k);
  }

  lemma FolderValid(folder: string)
    ensures AllValid(Sanitized(folder))
  {
    SanitizedIsSafe(folder);
  }

  lemma CommentValid(comment: string)
    ensures AllValid(CommentPart(comment))
  {
    SafeCommentPlain(comment);
    BracketedValid(SafeComment(comment));
  }

  lemma BracketedValid(c: string)
    requires AllValid(c)
    ensures AllValid("") && AllValid(" [" + c + "]")
  {
    assert !IsInvalid(' ') && !IsInvalid('[') && !IsInvalid(']');
  }

  /** Every generated name is a safe segment, whatever folder and comment are: the fallback name
      without folder and comment is never used. */
  lemma GeneratedIsSafe(kind: Kind, folder: string, comment: string, parts: NameParts)
    requires PartsOk(parts)
    ensures IsSafeSinglePathSegment(Render(GeneratedName(kind, folder, comment, parts)))
  {
    MarkerValid(kind);
    FolderValid(folder);
    CommentValid(comment);
    TailShape(parts);
    SafeJoined(Marker(kind), parts.clock, Sanitized(folder), CommentPart(comment), Tail(parts));
  }

  lemma SafeJoined(front: string, clock: string, folder: string, comment: string, tail: string)
    requires front != "" && front[0] == '[' && tail != "" && !BadEnd(tail[|tail| - 1])
    requires AllValid(front) && AllValid(clock) && AllValid(folder) && AllValid(comment) && AllValid(tail)
    ensures IsSafeSinglePathSegment(front + ("[" + clock + "]" + (folder + (comment + tail))))
  {
    JoinedValid(folder, comment, tail);
    BracketedSafe(front, clock, folder + (comment + tail));
  }

  lemma TailShape(parts: NameParts)
    requires PartsOk(parts)
    ensures AllValid(Tail(parts)) && Tail(parts) != "" && !BadEnd(Tail(parts)[|Tail(parts)| - 1])
  {}

  lemma JoinedValid(a: string, b: string, c: string)
    requires AllValid(a) && AllValid(b) && AllValid(c) && c != ""
    ensures AllValid(a + (b + c)) && (a + (b + c))[|a + (b + c)| - 1] == c[|c| - 1]
  {}

  lemma BracketedSafe(front: string, clock: string, rest: string)
    requires front != "" && front[0] == '[' && rest != "" && !BadEnd(rest[|rest| - 1])
    requires AllValid(front) && AllValid(clock) && AllValid(rest)
    ensures IsSafeSinglePathSegment(front + ("[" + clock + "]" + rest))
  {
    NoDevice(front + ("[" + clock + "]" + rest));
  }

  // ---- promotion and equality of names ----

  lemma {:induction false} ReplaceSkips(a: string, b: string, m: string, sub: string)
    requires forall i | 0 <= i < |a| :: !(m <= a[i..] + b)
    ensures ReplaceFirst(a + b, m, sub) == a + ReplaceFirst(b, m, sub)
  {
    if a == "" {
      assert a + b == b;
    } else {
      assert a[0..] == a;
      forall i | 0 <= i < |a[1..]| ensures !(m <= a[1..][i..] + b) {
        assert a[1..][i..] == a[i + 1..];
      }
      ReplaceSkips(a[1..], b, m, sub);
      assert (a + b)[1..] == a[1..] + b;
    }
  }

  lemma NoSmartInside(front: string, rest: string, i: nat)
    requires i < |front| && 1 < |front| && front[1] != 'S' && forall j | 0 < j < |front| :: front[j] != '['
    ensures !("[Smart]" <= front[i..] + rest)
  {
    assert (front[i..] + rest)[0] == front[i];
    if i == 0 { assert (front[i..] + rest)[1] == front[1]; }
  }

  /** Replacing the first [Smart] of any name by [Full] renders the promoted name. */
  lemma RenderedPromotion(n: ArchiveName)
    ensures Render(PromotedName(n)) == ReplaceFirst(Render(n), "[Smart]", "[Full]")
  {
    if n.Named? {
      var front := Marker(n.kind);
      MarkerShape(n.kind);
      if IsSmart(n.kind) {
        assert Render(n)[|"[Smart]"|..] == n.stem;
      } else {
        forall i | 0 <= i < |front| ensures !("[Smart]" <= front[i..] + n.stem) { NoSmartInside(front, n.stem, i); }
        ReplaceSkips(front, n.stem, "[Smart]", "[Full]");
      }
    }
  }

  /** Rendered names are equal only if the names are. */
  lemma RenderInjective(a: ArchiveName, b: ArchiveName)
    requires Render(a) == Render(b)
    ensures a == b
  {
    if a.Named? {
      assert Render(a)[1] == Word(a.kind)[0];
      assert b.Named? && Render(b)[1] == Word(b.kind)[0];
      assert Render(a)[|Marker(a.kind)|..] == a.stem;
      assert Render(b)[|Marker(b.kind)|..] == b.stem;
    }
  }
}
